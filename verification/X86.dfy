/**
 The x86_64 kernel of `src/simd/single_x86.rs`: its assembly text as data, an interpreter for the nine
 instruction shapes it uses, and the simulation of the RFC steps. The schedule adds the next step's
 message word to a register one step early and keeps a rolling copy of the step's d in `T1`.
 */
module X86 {
  import opened Words
  import opened Consts
  import opened Rfc1321

  /** Registers a, b, c, d and the two scratch registers t1, t2. */
  datatype Reg = A | B | C | D | T1 | T2

  /** A byte offset whose four-byte read stays inside the 64-byte block. */
  type Offset = o: nat | o <= 60

  type StepIndex = i: nat | i < 64

  datatype Instr =
    | AddMem(dst: Reg, off: Offset)
    | AddK(dst: Reg, k: StepIndex)
    | AddReg(dst: Reg, src: Reg)
    | Mov(dst: Reg, src: Reg)
    | Xor(dst: Reg, src: Reg)
    | And(dst: Reg, src: Reg)
    | Or(dst: Reg, src: Reg)
    | Not(dst: Reg)
    | Rol(dst: Reg, r: Amount)

  datatype Machine = Machine(a: Word, b: Word, c: Word, d: Word, t1: Word, t2: Word) {
    function Get(r: Reg): Word {
      match r
      case A => a
      case B => b
      case C => c
      case D => d
      case T1 => t1
      case T2 => t2
    }

    function Set(r: Reg, w: Word): Machine {
      match r
      case A => this.(a := w)
      case B => this.(b := w)
      case C => this.(c := w)
      case D => this.(d := w)
      case T1 => this.(t1 := w)
      case T2 => this.(t2 := w)
    }
  }

  /** One instruction; `block` is the memory behind the pointer m. */
  function Exec(ins: Instr, s: Machine, block: seq<Byte>): Machine
    requires |block| == 64
  {
    match ins
    case AddMem(dst, off) => s.Set(dst, Add(s.Get(dst), LoadLe(block, off)))
    case AddK(dst, k) => s.Set(dst, Add(s.Get(dst), K(k)))
    case AddReg(dst, src) => s.Set(dst, Add(s.Get(dst), s.Get(src)))
    case Mov(dst, src) => s.Set(dst, s.Get(src))
    case Xor(dst, src) => s.Set(dst, BitXor(s.Get(dst), s.Get(src)))
    case And(dst, src) => s.Set(dst, BitAnd(s.Get(dst), s.Get(src)))
    case Or(dst, src) => s.Set(dst, BitOr(s.Get(dst), s.Get(src)))
    case Not(dst) => s.Set(dst, BitNot(s.Get(dst)))
    case Rol(dst, r) => s.Set(dst, Rotl(s.Get(dst), r))
  }

  /** The machine after the first `n` instructions of `code`. */
  function Run(code: seq<Instr>, n: nat, s: Machine, block: seq<Byte>): Machine
    requires n <= |code| && |block| == 64
    decreases n
  {
    if n == 0 then s else Exec(code[n - 1], Run(code, n - 1, s, block), block)
  }

  lemma {:induction false} RunAppend(p: seq<Instr>, q: seq<Instr>, n: nat, s: Machine, block: seq<Byte>)
    requires n <= |q| && |block| == 64
    ensures Run(p + q, |p| + n, s, block) == Run(q, n, Run(p, |p|, s, block), block)
  {
    hide Exec;
    if n == 0 {
      RunPrefix(p, q, |p|, s, block);
    } else {
      RunAppend(p, q, n - 1, s, block);
      assert (p + q)[|p| + n - 1] == q[n - 1];
    }
  }

  lemma {:induction false} RunPrefix(p: seq<Instr>, q: seq<Instr>, n: nat, s: Machine, block: seq<Byte>)
    requires n <= |p| && |block| == 64
    ensures Run(p + q, n, s, block) == Run(p, n, s, block)
  {
    hide Exec;
    if n != 0 {
      RunPrefix(p, q, n - 1, s, block);
    }
  }

  // ---- The assembly text ----

  const PREAMBLE: seq<Instr> := [AddMem(A, 0), Mov(T1, D)]

  /** The instructions of steps 0 to 3. */
  function FCode1(i: nat): seq<Instr>
    requires 0 <= i < 4
  {
    match i
    case 0 => [Xor(T1, C), AddK(A, 0), And(T1, B), Xor(T1, D), AddMem(D, 4),
      AddReg(A, T1), Rol(A, 7), Mov(T1, C), AddReg(A, B)]
    case 1 => [Xor(T1, B), AddK(D, 1), And(T1, A), Xor(T1, C), AddMem(C, 8),
      AddReg(D, T1), Rol(D, 12), Mov(T1, B), AddReg(D, A)]
    case 2 => [Xor(T1, A), AddK(C, 2), And(T1, D), Xor(T1, B), AddMem(B, 12),
      AddReg(C, T1), Rol(C, 17), Mov(T1, A), AddReg(C, D)]
    case _ => [Xor(T1, D), AddK(B, 3), And(T1, C), Xor(T1, A), AddMem(A, 16),
      AddReg(B, T1), Rol(B, 22), Mov(T1, D), AddReg(B, C)]
  }

  /** The instructions of steps 4 to 7. */
  function FCode2(i: nat): seq<Instr>
    requires 4 <= i < 8
  {
    match i
    case 4 => [Xor(T1, C), AddK(A, 4), And(T1, B), Xor(T1, D), AddMem(D, 20),
      AddReg(A, T1), Rol(A, 7), Mov(T1, C), AddReg(A, B)]
    case 5 => [Xor(T1, B), AddK(D, 5), And(T1, A), Xor(T1, C), AddMem(C, 24),
      AddReg(D, T1), Rol(D, 12), Mov(T1, B), AddReg(D, A)]
    case 6 => [Xor(T1, A), AddK(C, 6), And(T1, D), Xor(T1, B), AddMem(B, 28),
      AddReg(C, T1), Rol(C, 17), Mov(T1, A), AddReg(C, D)]
    case _ => [Xor(T1, D), AddK(B, 7), And(T1, C), Xor(T1, A), AddMem(A, 32),
      AddReg(B, T1), Rol(B, 22), Mov(T1, D), AddReg(B, C)]
  }

  /** The instructions of steps 8 to 11. */
  function FCode3(i: nat): seq<Instr>
    requires 8 <= i < 12
  {
    match i
    case 8 => [Xor(T1, C), AddK(A, 8), And(T1, B), Xor(T1, D), AddMem(D, 36),
      AddReg(A, T1), Rol(A, 7), Mov(T1, C), AddReg(A, B)]
    case 9 => [Xor(T1, B), AddK(D, 9), And(T1, A), Xor(T1, C), AddMem(C, 40),
      AddReg(D, T1), Rol(D, 12), Mov(T1, B), AddReg(D, A)]
    case 10 => [Xor(T1, A), AddK(C, 10), And(T1, D), Xor(T1, B), AddMem(B, 44),
      AddReg(C, T1), Rol(C, 17), Mov(T1, A), AddReg(C, D)]
    case _ => [Xor(T1, D), AddK(B, 11), And(T1, C), Xor(T1, A), AddMem(A, 48),
      AddReg(B, T1), Rol(B, 22), Mov(T1, D), AddReg(B, C)]
  }

  /** The instructions of steps 12 to 15. */
  function FCode4(i: nat): seq<Instr>
    requires 12 <= i < 16
  {
    match i
    case 12 => [Xor(T1, C), AddK(A, 12), And(T1, B), Xor(T1, D), AddMem(D, 52),
      AddReg(A, T1), Rol(A, 7), Mov(T1, C), AddReg(A, B)]
    case 13 => [Xor(T1, B), AddK(D, 13), And(T1, A), Xor(T1, C), AddMem(C, 56),
      AddReg(D, T1), Rol(D, 12), Mov(T1, B), AddReg(D, A)]
    case 14 => [Xor(T1, A), AddK(C, 14), And(T1, D), Xor(T1, B), AddMem(B, 60),
      AddReg(C, T1), Rol(C, 17), Mov(T1, A), AddReg(C, D)]
    case _ => [Xor(T1, D), AddK(B, 15), And(T1, C), Xor(T1, A), AddMem(A, 4),
      AddReg(B, T1), Rol(B, 22), Mov(T1, D), AddReg(B, C)]
  }

  function FCode(i: nat): seq<Instr>
    requires 0 <= i < 16
  {
    if i < 4 then FCode1(i) else if i < 8 then FCode2(i) else if i < 12 then FCode3(i) else FCode4(i)
  }

  /** The instructions of steps 16 to 19. */
  function GCode1(i: nat): seq<Instr>
    requires 16 <= i < 20
  {
    match i
    case 16 => [Not(T1), AddK(A, 16), And(T1, C), Mov(T2, D), AddMem(D, 24), AddReg(A, T1),
      And(T2, B), AddReg(A, T2), Rol(A, 5), Mov(T1, C), AddReg(A, B)]
    case 17 => [Not(T1), AddK(D, 17), And(T1, B), Mov(T2, C), AddMem(C, 44), AddReg(D, T1),
      And(T2, A), AddReg(D, T2), Rol(D, 9), Mov(T1, B), AddReg(D, A)]
    case 18 => [Not(T1), AddK(C, 18), And(T1, A), Mov(T2, B), AddMem(B, 0), AddReg(C, T1),
      And(T2, D), AddReg(C, T2), Rol(C, 14), Mov(T1, A), AddReg(C, D)]
    case _ => [Not(T1), AddK(B, 19), And(T1, D), Mov(T2, A), AddMem(A, 20), AddReg(B, T1),
      And(T2, C), AddReg(B, T2), Rol(B, 20), Mov(T1, D), AddReg(B, C)]
  }

  /** The instructions of steps 20 to 23. */
  function GCode2(i: nat): seq<Instr>
    requires 20 <= i < 24
  {
    match i
    case 20 => [Not(T1), AddK(A, 20), And(T1, C), Mov(T2, D), AddMem(D, 40), AddReg(A, T1),
      And(T2, B), AddReg(A, T2), Rol(A, 5), Mov(T1, C), AddReg(A, B)]
    case 21 => [Not(T1), AddK(D, 21), And(T1, B), Mov(T2, C), AddMem(C, 60), AddReg(D, T1),
      And(T2, A), AddReg(D, T2), Rol(D, 9), Mov(T1, B), AddReg(D, A)]
    case 22 => [Not(T1), AddK(C, 22), And(T1, A), Mov(T2, B), AddMem(B, 16), AddReg(C, T1),
      And(T2, D), AddReg(C, T2), Rol(C, 14), Mov(T1, A), AddReg(C, D)]
    case _ => [Not(T1), AddK(B, 23), And(T1, D), Mov(T2, A), AddMem(A, 36), AddReg(B, T1),
      And(T2, C), AddReg(B, T2), Rol(B, 20), Mov(T1, D), AddReg(B, C)]
  }

  /** The instructions of steps 24 to 27. */
  function GCode3(i: nat): seq<Instr>
    requires 24 <= i < 28
  {
    match i
    case 24 => [Not(T1), AddK(A, 24), And(T1, C), Mov(T2, D), AddMem(D, 56), AddReg(A, T1),
      And(T2, B), AddReg(A, T2), Rol(A, 5), Mov(T1, C), AddReg(A, B)]
    case 25 => [Not(T1), AddK(D, 25), And(T1, B), Mov(T2, C), AddMem(C, 12), AddReg(D, T1),
      And(T2, A), AddReg(D, T2), Rol(D, 9), Mov(T1, B), AddReg(D, A)]
    case 26 => [Not(T1), AddK(C, 26), And(T1, A), Mov(T2, B), AddMem(B, 32), AddReg(C, T1),
      And(T2, D), AddReg(C, T2), Rol(C, 14), Mov(T1, A), AddReg(C, D)]
    case _ => [Not(T1), AddK(B, 27), And(T1, D), Mov(T2, A), AddMem(A, 52), AddReg(B, T1),
      And(T2, C), AddReg(B, T2), Rol(B, 20), Mov(T1, D), AddReg(B, C)]
  }

  /** The instructions of steps 28 to 31. */
  function GCode4(i: nat): seq<Instr>
    requires 28 <= i < 32
  {
    match i
    case 28 => [Not(T1), AddK(A, 28), And(T1, C), Mov(T2, D), AddMem(D, 8), AddReg(A, T1),
      And(T2, B), AddReg(A, T2), Rol(A, 5), Mov(T1, C), AddReg(A, B)]
    case 29 => [Not(T1), AddK(D, 29), And(T1, B), Mov(T2, C), AddMem(C, 28), AddReg(D, T1),
      And(T2, A), AddReg(D, T2), Rol(D, 9), Mov(T1, B), AddReg(D, A)]
    case 30 => [Not(T1), AddK(C, 30), And(T1, A), Mov(T2, B), AddMem(B, 48), AddReg(C, T1),
      And(T2, D), AddReg(C, T2), Rol(C, 14), Mov(T1, A), AddReg(C, D)]
    case _ => [Not(T1), AddK(B, 31), And(T1, D), Mov(T2, A), AddMem(A, 20), AddReg(B, T1),
      And(T2, C), AddReg(B, T2), Rol(B, 20), Mov(T1, D), AddReg(B, C)]
  }

  function GCode(i: nat): seq<Instr>
    requires 16 <= i < 32
  {
    if i < 20 then GCode1(i) else if i < 24 then GCode2(i) else if i < 28 then GCode3(i) else GCode4(i)
  }

  /** The instructions of steps 32 to 35. */
  function HCode1(i: nat): seq<Instr>
    requires 32 <= i < 36
  {
    match i
    case 32 => [Xor(T1, C), AddK(A, 32), AddMem(D, 32), Xor(T1, B),
      AddReg(A, T1), Rol(A, 4), Mov(T1, C), AddReg(A, B)]
    case 33 => [Xor(T1, B), AddK(D, 33), AddMem(C, 44), Xor(T1, A),
      AddReg(D, T1), Rol(D, 11), Mov(T1, B), AddReg(D, A)]
    case 34 => [Xor(T1, A), AddK(C, 34), AddMem(B, 56), Xor(T1, D),
      AddReg(C, T1), Rol(C, 16), Mov(T1, A), AddReg(C, D)]
    case _ => [Xor(T1, D), AddK(B, 35), AddMem(A, 4), Xor(T1, C),
      AddReg(B, T1), Rol(B, 23), Mov(T1, D), AddReg(B, C)]
  }

  /** The instructions of steps 36 to 39. */
  function HCode2(i: nat): seq<Instr>
    requires 36 <= i < 40
  {
    match i
    case 36 => [Xor(T1, C), AddK(A, 36), AddMem(D, 16), Xor(T1, B),
      AddReg(A, T1), Rol(A, 4), Mov(T1, C), AddReg(A, B)]
    case 37 => [Xor(T1, B), AddK(D, 37), AddMem(C, 28), Xor(T1, A),
      AddReg(D, T1), Rol(D, 11), Mov(T1, B), AddReg(D, A)]
    case 38 => [Xor(T1, A), AddK(C, 38), AddMem(B, 40), Xor(T1, D),
      AddReg(C, T1), Rol(C, 16), Mov(T1, A), AddReg(C, D)]
    case _ => [Xor(T1, D), AddK(B, 39), AddMem(A, 52), Xor(T1, C),
      AddReg(B, T1), Rol(B, 23), Mov(T1, D), AddReg(B, C)]
  }

  /** The instructions of steps 40 to 43. */
  function HCode3(i: nat): seq<Instr>
    requires 40 <= i < 44
  {
    match i
    case 40 => [Xor(T1, C), AddK(A, 40), AddMem(D, 0), Xor(T1, B),
      AddReg(A, T1), Rol(A, 4), Mov(T1, C), AddReg(A, B)]
    case 41 => [Xor(T1, B), AddK(D, 41), AddMem(C, 12), Xor(T1, A),
      AddReg(D, T1), Rol(D, 11), Mov(T1, B), AddReg(D, A)]
    case 42 => [Xor(T1, A), AddK(C, 42), AddMem(B, 24), Xor(T1, D),
      AddReg(C, T1), Rol(C, 16), Mov(T1, A), AddReg(C, D)]
    case _ => [Xor(T1, D), AddK(B, 43), AddMem(A, 36), Xor(T1, C),
      AddReg(B, T1), Rol(B, 23), Mov(T1, D), AddReg(B, C)]
  }

  /** The instructions of steps 44 to 47. */
  function HCode4(i: nat): seq<Instr>
    requires 44 <= i < 48
  {
    match i
    case 44 => [Xor(T1, C), AddK(A, 44), AddMem(D, 48), Xor(T1, B),
      AddReg(A, T1), Rol(A, 4), Mov(T1, C), AddReg(A, B)]
    case 45 => [Xor(T1, B), AddK(D, 45), AddMem(C, 60), Xor(T1, A),
      AddReg(D, T1), Rol(D, 11), Mov(T1, B), AddReg(D, A)]
    case 46 => [Xor(T1, A), AddK(C, 46), AddMem(B, 8), Xor(T1, D),
      AddReg(C, T1), Rol(C, 16), Mov(T1, A), AddReg(C, D)]
    case _ => [Xor(T1, D), AddK(B, 47), AddMem(A, 0), Xor(T1, C),
      AddReg(B, T1), Rol(B, 23), Mov(T1, D), AddReg(B, C)]
  }

  function HCode(i: nat): seq<Instr>
    requires 32 <= i < 48
  {
    if i < 36 then HCode1(i) else if i < 40 then HCode2(i) else if i < 44 then HCode3(i) else HCode4(i)
  }

  /** The instructions of steps 48 to 51. */
  function ICode1(i: nat): seq<Instr>
    requires 48 <= i < 52
  {
    match i
    case 48 => [Not(T1), AddK(A, 48), AddMem(D, 28), Or(T1, B), Xor(T1, C),
      AddReg(A, T1), Rol(A, 6), Mov(T1, C), AddReg(A, B)]
    case 49 => [Not(T1), AddK(D, 49), AddMem(C, 56), Or(T1, A), Xor(T1, B),
      AddReg(D, T1), Rol(D, 10), Mov(T1, B), AddReg(D, A)]
    case 50 => [Not(T1), AddK(C, 50), AddMem(B, 20), Or(T1, D), Xor(T1, A),
      AddReg(C, T1), Rol(C, 15), Mov(T1, A), AddReg(C, D)]
    case _ => [Not(T1), AddK(B, 51), AddMem(A, 48), Or(T1, C), Xor(T1, D),
      AddReg(B, T1), Rol(B, 21), Mov(T1, D), AddReg(B, C)]
  }

  /** The instructions of steps 52 to 55. */
  function ICode2(i: nat): seq<Instr>
    requires 52 <= i < 56
  {
    match i
    case 52 => [Not(T1), AddK(A, 52), AddMem(D, 12), Or(T1, B), Xor(T1, C),
      AddReg(A, T1), Rol(A, 6), Mov(T1, C), AddReg(A, B)]
    case 53 => [Not(T1), AddK(D, 53), AddMem(C, 40), Or(T1, A), Xor(T1, B),
      AddReg(D, T1), Rol(D, 10), Mov(T1, B), AddReg(D, A)]
    case 54 => [Not(T1), AddK(C, 54), AddMem(B, 4), Or(T1, D), Xor(T1, A),
      AddReg(C, T1), Rol(C, 15), Mov(T1, A), AddReg(C, D)]
    case _ => [Not(T1), AddK(B, 55), AddMem(A, 32), Or(T1, C), Xor(T1, D),
      AddReg(B, T1), Rol(B, 21), Mov(T1, D), AddReg(B, C)]
  }

  /** The instructions of steps 56 to 59. */
  function ICode3(i: nat): seq<Instr>
    requires 56 <= i < 60
  {
    match i
    case 56 => [Not(T1), AddK(A, 56), AddMem(D, 60), Or(T1, B), Xor(T1, C),
      AddReg(A, T1), Rol(A, 6), Mov(T1, C), AddReg(A, B)]
    case 57 => [Not(T1), AddK(D, 57), AddMem(C, 24), Or(T1, A), Xor(T1, B),
      AddReg(D, T1), Rol(D, 10), Mov(T1, B), AddReg(D, A)]
    case 58 => [Not(T1), AddK(C, 58), AddMem(B, 52), Or(T1, D), Xor(T1, A),
      AddReg(C, T1), Rol(C, 15), Mov(T1, A), AddReg(C, D)]
    case _ => [Not(T1), AddK(B, 59), AddMem(A, 16), Or(T1, C), Xor(T1, D),
      AddReg(B, T1), Rol(B, 21), Mov(T1, D), AddReg(B, C)]
  }

  /** The instructions of steps 60 to 63. */
  function ICode4(i: nat): seq<Instr>
    requires 60 <= i < 64
  {
    match i
    case 60 => [Not(T1), AddK(A, 60), AddMem(D, 44), Or(T1, B), Xor(T1, C),
      AddReg(A, T1), Rol(A, 6), Mov(T1, C), AddReg(A, B)]
    case 61 => [Not(T1), AddK(D, 61), AddMem(C, 8), Or(T1, A), Xor(T1, B),
      AddReg(D, T1), Rol(D, 10), Mov(T1, B), AddReg(D, A)]
    case 62 => [Not(T1), AddK(C, 62), AddMem(B, 36), Or(T1, D), Xor(T1, A),
      AddReg(C, T1), Rol(C, 15), Mov(T1, A), AddReg(C, D)]
    case _ => [Not(T1), AddK(B, 63), Or(T1, C), Xor(T1, D),
      AddReg(B, T1), Rol(B, 21), AddReg(B, C)]
  }

  function ICode(i: nat): seq<Instr>
    requires 48 <= i < 64
  {
    if i < 52 then ICode1(i) else if i < 56 then ICode2(i) else if i < 60 then ICode3(i) else ICode4(i)
  }

  /** The code of step `i` exactly as the assembly text lists it. */
  function StepCode(i: nat): seq<Instr>
    requires i < 64
  {
    if i < 16 then FCode(i) else if i < 32 then GCode(i) else if i < 48 then HCode(i) else ICode(i)
  }

  // ---- The four round macros the text is an expansion of ----

  function FMacro(a: Reg, b: Reg, c: Reg, d: Reg, k: StepIndex, next: Offset, r: Amount): seq<Instr> {
    [Xor(T1, c), AddK(a, k), And(T1, b), Xor(T1, d), AddMem(d, next), AddReg(a, T1), Rol(a, r), Mov(T1, c), AddReg(a, b)]
  }

  function GMacro(a: Reg, b: Reg, c: Reg, d: Reg, k: StepIndex, next: Offset, r: Amount): seq<Instr> {
    [Not(T1), AddK(a, k), And(T1, c), Mov(T2, d), AddMem(d, next), AddReg(a, T1), And(T2, b), AddReg(a, T2), Rol(a, r),
     Mov(T1, c), AddReg(a, b)]
  }

  function HMacro(a: Reg, b: Reg, c: Reg, d: Reg, k: StepIndex, next: Offset, r: Amount): seq<Instr> {
    [Xor(T1, c), AddK(a, k), AddMem(d, next), Xor(T1, b), AddReg(a, T1), Rol(a, r), Mov(T1, c), AddReg(a, b)]
  }

  function IMacro(a: Reg, b: Reg, c: Reg, d: Reg, k: StepIndex, next: Offset, r: Amount): seq<Instr> {
    [Not(T1), AddK(a, k), AddMem(d, next), Or(T1, b), Xor(T1, c), AddReg(a, T1), Rol(a, r), Mov(T1, c), AddReg(a, b)]
  }

  /** The last step neither preloads a word nor refreshes the scratch copy. */
  function LastMacro(a: Reg, b: Reg, c: Reg, d: Reg, k: StepIndex, r: Amount): seq<Instr> {
    [Not(T1), AddK(a, k), Or(T1, b), Xor(T1, c), AddReg(a, T1), Rol(a, r), AddReg(a, b)]
  }

  /** The register that plays role `j` (0 for a, up to 3 for d) in step `i`. */
  function Role(i: nat, j: nat): Reg {
    match (DEST(i) + j) % 4
    case 0 => A
    case 1 => B
    case 2 => C
    case _ => D
  }

  /** The macro call that step `i < 63` of the text expands: its roles, its constant, the NEXT step's word, its rotation. */
  function MacroCall(i: nat): seq<Instr>
    requires i < 63
  {
    var a, b, c, d, next := Role(i, 0), Role(i, 1), Role(i, 2), Role(i, 3), 4 * MSG(i + 1);
    if i < 16 then FMacro(a, b, c, d, i, next, S(i))
    else if i < 32 then GMacro(a, b, c, d, i, next, S(i))
    else if i < 48 then HMacro(a, b, c, d, i, next, S(i))
    else IMacro(a, b, c, d, i, next, S(i))
  }

  lemma FCodeIsMacro1(i: nat)
    requires 0 <= i < 4
    ensures FCode1(i) == MacroCall(i)
  {
    hide MSG, S;
    RowF();
    match i
    case 0 =>
    case 1 =>
    case 2 =>
    case _ =>
  }

  lemma FCodeIsMacro2(i: nat)
    requires 4 <= i < 8
    ensures FCode2(i) == MacroCall(i)
  {
    hide MSG, S;
    RowF();
    match i
    case 4 =>
    case 5 =>
    case 6 =>
    case _ =>
  }

  lemma FCodeIsMacro3(i: nat)
    requires 8 <= i < 12
    ensures FCode3(i) == MacroCall(i)
  {
    hide MSG, S;
    RowF();
    match i
    case 8 =>
    case 9 =>
    case 10 =>
    case _ =>
  }

  lemma FCodeIsMacro4(i: nat)
    requires 12 <= i < 16
    ensures FCode4(i) == MacroCall(i)
  {
    hide MSG, S;
    RowF();
    RowG();
    match i
    case 12 =>
    case 13 =>
    case 14 =>
    case _ =>
  }

  lemma GCodeIsMacro1(i: nat)
    requires 16 <= i < 20
    ensures GCode1(i) == MacroCall(i)
  {
    hide MSG, S;
    RowG();
    match i
    case 16 =>
    case 17 =>
    case 18 =>
    case _ =>
  }

  lemma GCodeIsMacro2(i: nat)
    requires 20 <= i < 24
    ensures GCode2(i) == MacroCall(i)
  {
    hide MSG, S;
    RowG();
    match i
    case 20 =>
    case 21 =>
    case 22 =>
    case _ =>
  }

  lemma GCodeIsMacro3(i: nat)
    requires 24 <= i < 28
    ensures GCode3(i) == MacroCall(i)
  {
    hide MSG, S;
    RowG();
    match i
    case 24 =>
    case 25 =>
    case 26 =>
    case _ =>
  }

  lemma GCodeIsMacro4(i: nat)
    requires 28 <= i < 32
    ensures GCode4(i) == MacroCall(i)
  {
    hide MSG, S;
    RowG();
    RowH();
    match i
    case 28 =>
    case 29 =>
    case 30 =>
    case _ =>
  }

  lemma HCodeIsMacro1(i: nat)
    requires 32 <= i < 36
    ensures HCode1(i) == MacroCall(i)
  {
    hide MSG, S;
    RowH();
    match i
    case 32 =>
    case 33 =>
    case 34 =>
    case _ =>
  }

  lemma HCodeIsMacro2(i: nat)
    requires 36 <= i < 40
    ensures HCode2(i) == MacroCall(i)
  {
    hide MSG, S;
    RowH();
    match i
    case 36 =>
    case 37 =>
    case 38 =>
    case _ =>
  }

  lemma HCodeIsMacro3(i: nat)
    requires 40 <= i < 44
    ensures HCode3(i) == MacroCall(i)
  {
    hide MSG, S;
    RowH();
    match i
    case 40 =>
    case 41 =>
    case 42 =>
    case _ =>
  }

  lemma HCodeIsMacro4(i: nat)
    requires 44 <= i < 48
    ensures HCode4(i) == MacroCall(i)
  {
    hide MSG, S;
    RowH();
    RowI();
    match i
    case 44 =>
    case 45 =>
    case 46 =>
    case _ =>
  }

  lemma ICodeIsMacro1(i: nat)
    requires 48 <= i < 52
    ensures ICode1(i) == MacroCall(i)
  {
    hide MSG, S;
    RowI();
    match i
    case 48 =>
    case 49 =>
    case 50 =>
    case _ =>
  }

  lemma ICodeIsMacro2(i: nat)
    requires 52 <= i < 56
    ensures ICode2(i) == MacroCall(i)
  {
    hide MSG, S;
    RowI();
    match i
    case 52 =>
    case 53 =>
    case 54 =>
    case _ =>
  }

  lemma ICodeIsMacro3(i: nat)
    requires 56 <= i < 60
    ensures ICode3(i) == MacroCall(i)
  {
    hide MSG, S;
    RowI();
    match i
    case 56 =>
    case 57 =>
    case 58 =>
    case _ =>
  }

  lemma ICodeIsMacro4(i: nat)
    requires 60 <= i < 63
    ensures ICode4(i) == MacroCall(i)
  {
    hide MSG, S;
    RowI();
    match i
    case 60 =>
    case 61 =>
    case _ =>
  }

  lemma LastCodeIsMacro()
    ensures StepCode(63) == LastMacro(B, C, D, A, 63, S(63))
  {
  }

  /** The whole listing, step by step, is the expansion of the four macros. */
  lemma StepCodeIsMacroCall(i: nat)
    requires i < 63
    ensures StepCode(i) == MacroCall(i)
  {
    hide FCode1, FCode2, FCode3, FCode4, GCode1, GCode2, GCode3, GCode4;
    hide HCode1, HCode2, HCode3, HCode4, ICode1, ICode2, ICode3, ICode4, MacroCall;
    if i < 4 { FCodeIsMacro1(i); }
    else if i < 8 { FCodeIsMacro2(i); }
    else if i < 12 { FCodeIsMacro3(i); }
    else if i < 16 { FCodeIsMacro4(i); }
    else if i < 20 { GCodeIsMacro1(i); }
    else if i < 24 { GCodeIsMacro2(i); }
    else if i < 28 { GCodeIsMacro3(i); }
    else if i < 32 { GCodeIsMacro4(i); }
    else if i < 36 { HCodeIsMacro1(i); }
    else if i < 40 { HCodeIsMacro2(i); }
    else if i < 44 { HCodeIsMacro3(i); }
    else if i < 48 { HCodeIsMacro4(i); }
    else if i < 52 { ICodeIsMacro1(i); }
    else if i < 56 { ICodeIsMacro2(i); }
    else if i < 60 { ICodeIsMacro3(i); }
    else { ICodeIsMacro4(i); }
  }

  // ---- Simulation ----

  /** At the start of step `i`: role a already holds the step's word `w`, the others are exact, t1 copies d. */
  predicate Loaded(s: Machine, r: State, i: nat, w: Word) {
    && s.Get(Role(i, 0)) == Add(r.a, w)
    && s.Get(Role(i, 1)) == r.b
    && s.Get(Role(i, 2)) == r.c
    && s.Get(Role(i, 3)) == r.d
    && s.Get(T1) == r.d
  }

  lemma AddPreloaded(a: Word, w: Word, k: Word, x: Word)
    ensures Add(Add(Add(a, w), k), x) == Add(Add(Add(a, x), k), w)
  {
    hide Add;
    AddComm(a, w);
    AddAssoc(w, a, k);
    AddAssoc(w, Add(a, k), x);
    AddComm(w, Add(Add(a, k), x));
    AddAssoc(a, k, x);
    AddComm(k, x);
    AddAssoc(a, x, k);
  }

  /** G is never formed: its two disjoint halves are added to the destination one after the other. */
  lemma GInTwoAdds(a: Word, b: Word, c: Word, d: Word)
    ensures Add(Add(a, BitAnd(BitNot(d), c)), BitAnd(d, b)) == Add(a, G(b, c, d))
  {
    hide Add, BitAnd, BitNot, G;
    GBySum(b, c, d);
    AddAssoc(a, BitAnd(BitNot(d), c), BitAnd(d, b));
  }

  lemma GetOfSet()
    ensures forall s: Machine, p, w, q :: s.Set(p, w).Get(q) == if p == q then w else s.Get(q)
  {
  }

  predicate Distinct(a: Reg, b: Reg, c: Reg, d: Reg) {
    a != b && a != c && a != d && b != c && b != d && c != d && {a, b, c, d} !! {T1, T2}
  }

  /** What one macro does: a := b + rotl((a + k) + mix), d gains the next word, t1 copies c, b and c stay. */
  predicate MacroEffect(s: Machine, s': Machine, a: Reg, b: Reg, c: Reg, d: Reg, mix: Word, k: Word, next: Word, rot: Amount) {
    && s'.Get(a) == Add(Rotl(Add(Add(s.Get(a), k), mix), rot), s.Get(b))
    && s'.Get(b) == s.Get(b)
    && s'.Get(c) == s'.Get(T1) == s.Get(c)
    && s'.Get(d) == Add(s.Get(d), next)
  }

  lemma FMacroRun(s: Machine, a: Reg, b: Reg, c: Reg, d: Reg, k: StepIndex, next: Offset, rot: Amount, block: seq<Byte>)
    requires |block| == 64 && Distinct(a, b, c, d) && s.Get(T1) == s.Get(d)
    ensures MacroEffect(s, Run(FMacro(a, b, c, d, k, next, rot), 9, s, block), a, b, c, d,
                        F(s.Get(b), s.Get(c), s.Get(d)), K(k), LoadLe(block, next), rot)
  {
    hide Add, Rotl, LoadLe, K, F, BitXor, BitAnd, BitOr, BitNot, Machine.Get, Machine.Set;
    FReversed(s.Get(b), s.Get(c), s.Get(d));
    GetOfSet();
  }

  /** The first half of a G step leaves one half of G in t1 and preloads the next word. */
  function GMacroHead(a: Reg, c: Reg, d: Reg, k: StepIndex, next: Offset): seq<Instr> {
    [Not(T1), AddK(a, k), And(T1, c), Mov(T2, d), AddMem(d, next)]
  }

  function GMacroTail(a: Reg, b: Reg, c: Reg, r: Amount): seq<Instr> {
    [AddReg(a, T1), And(T2, b), AddReg(a, T2), Rol(a, r), Mov(T1, c), AddReg(a, b)]
  }

  lemma GMacroHalves(a: Reg, b: Reg, c: Reg, d: Reg, k: StepIndex, next: Offset, r: Amount)
    ensures GMacro(a, b, c, d, k, next, r) == GMacroHead(a, c, d, k, next) + GMacroTail(a, b, c, r)
  {
  }

  lemma GHeadRun(s: Machine, a: Reg, b: Reg, c: Reg, d: Reg, k: StepIndex, next: Offset, block: seq<Byte>)
    requires |block| == 64 && Distinct(a, b, c, d) && s.Get(T1) == s.Get(d)
    ensures var s' := Run(GMacroHead(a, c, d, k, next), 5, s, block);
            && s'.Get(a) == Add(s.Get(a), K(k)) && s'.Get(b) == s.Get(b) && s'.Get(c) == s.Get(c)
            && s'.Get(d) == Add(s.Get(d), LoadLe(block, next))
            && s'.Get(T1) == BitAnd(BitNot(s.Get(d)), s.Get(c)) && s'.Get(T2) == s.Get(d)
  {
    hide Add, LoadLe, K, BitAnd, BitNot, Machine.Get, Machine.Set;
    GetOfSet();
  }

  lemma GTailRun(s: Machine, a: Reg, b: Reg, c: Reg, d: Reg, rot: Amount, block: seq<Byte>)
    requires |block| == 64 && Distinct(a, b, c, d)
    ensures var s' := Run(GMacroTail(a, b, c, rot), 6, s, block);
            && s'.Get(a) == Add(Rotl(Add(Add(s.Get(a), s.Get(T1)), BitAnd(s.Get(T2), s.Get(b))), rot), s.Get(b))
            && s'.Get(b) == s.Get(b) && s'.Get(c) == s'.Get(T1) == s.Get(c) && s'.Get(d) == s.Get(d)
  {
    hide Add, Rotl, BitAnd, Machine.Get, Machine.Set;
    GetOfSet();
  }

  lemma GMacroRun(s: Machine, a: Reg, b: Reg, c: Reg, d: Reg, k: StepIndex, next: Offset, rot: Amount, block: seq<Byte>)
    requires |block| == 64 && Distinct(a, b, c, d) && s.Get(T1) == s.Get(d)
    ensures MacroEffect(s, Run(GMacro(a, b, c, d, k, next, rot), 11, s, block), a, b, c, d,
                        G(s.Get(b), s.Get(c), s.Get(d)), K(k), LoadLe(block, next), rot)
  {
    hide Run, Add, Rotl, LoadLe, K, G, BitAnd, BitNot, Machine.Get, GMacro;
    GMacroHalves(a, b, c, d, k, next, rot);
    var head, tail := GMacroHead(a, c, d, k, next), GMacroTail(a, b, c, rot);
    RunAppend(head, tail, 6, s, block);
    GHeadRun(s, a, b, c, d, k, next, block);
    GTailRun(Run(head, 5, s, block), a, b, c, d, rot, block);
    GInTwoAdds(Add(s.Get(a), K(k)), s.Get(b), s.Get(c), s.Get(d));
  }

  lemma HMacroRun(s: Machine, a: Reg, b: Reg, c: Reg, d: Reg, k: StepIndex, next: Offset, rot: Amount, block: seq<Byte>)
    requires |block| == 64 && Distinct(a, b, c, d) && s.Get(T1) == s.Get(d)
    ensures MacroEffect(s, Run(HMacro(a, b, c, d, k, next, rot), 8, s, block), a, b, c, d,
                        H(s.Get(b), s.Get(c), s.Get(d)), K(k), LoadLe(block, next), rot)
  {
    hide Add, Rotl, LoadLe, K, H, BitXor, BitAnd, BitOr, BitNot, Machine.Get, Machine.Set;
    HReversed(s.Get(b), s.Get(c), s.Get(d));
    GetOfSet();
  }

  lemma IMacroRun(s: Machine, a: Reg, b: Reg, c: Reg, d: Reg, k: StepIndex, next: Offset, rot: Amount, block: seq<Byte>)
    requires |block| == 64 && Distinct(a, b, c, d) && s.Get(T1) == s.Get(d)
    ensures MacroEffect(s, Run(IMacro(a, b, c, d, k, next, rot), 9, s, block), a, b, c, d,
                        I(s.Get(b), s.Get(c), s.Get(d)), K(k), LoadLe(block, next), rot)
  {
    hide Add, Rotl, LoadLe, K, I, BitXor, BitAnd, BitOr, BitNot, Machine.Get, Machine.Set;
    IReversed(s.Get(b), s.Get(c), s.Get(d));
    GetOfSet();
  }

  lemma LastMacroRun(s: Machine, a: Reg, b: Reg, c: Reg, d: Reg, k: StepIndex, rot: Amount, block: seq<Byte>)
    requires |block| == 64 && Distinct(a, b, c, d) && s.Get(T1) == s.Get(d)
    ensures var s' := Run(LastMacro(a, b, c, d, k, rot), 7, s, block);
            && s'.Get(a) == Add(Rotl(Add(Add(s.Get(a), K(k)), I(s.Get(b), s.Get(c), s.Get(d))), rot), s.Get(b))
            && s'.Get(b) == s.Get(b) && s'.Get(c) == s.Get(c) && s'.Get(d) == s.Get(d)
  {
    hide Add, Rotl, LoadLe, K, I, BitXor, BitAnd, BitOr, BitNot, Machine.Get, Machine.Set;
    IReversed(s.Get(b), s.Get(c), s.Get(d));
    GetOfSet();
  }

  lemma RolesRotate(i: nat)
    ensures Distinct(Role(i, 0), Role(i, 1), Role(i, 2), Role(i, 3))
    ensures Role(i + 1, 0) == Role(i, 3) && Role(i + 1, 1) == Role(i, 0)
    ensures Role(i + 1, 2) == Role(i, 1) && Role(i + 1, 3) == Role(i, 2)
  {
    assert i % 4 == 0 || i % 4 == 1 || i % 4 == 2 || i % 4 == 3;
  }

  /** The preloaded sum is the RFC step word. */
  lemma PreloadedStepWord(r: State, w: Word, i: nat)
    requires i < 64
    ensures Add(Rotl(Add(Add(Add(r.a, w), K(i)), Mix(i, r.b, r.c, r.d)), S(i)), r.b) == StepWord(r, w, i)
  {
    hide Add, Rotl, K, S, Mix;
    var mix := Mix(i, r.b, r.c, r.d);
    AddPreloaded(r.a, w, K(i), mix);
    AddComm(r.b, Rotl(Add(Add(Add(r.a, mix), K(i)), w), S(i)));
  }

  lemma MixOfRound(i: nat, x: Word, y: Word, z: Word)
    requires i < 64
    ensures i < 16 ==> Mix(i, x, y, z) == F(x, y, z)
    ensures 16 <= i < 32 ==> Mix(i, x, y, z) == G(x, y, z)
    ensures 32 <= i < 48 ==> Mix(i, x, y, z) == H(x, y, z)
    ensures 48 <= i ==> Mix(i, x, y, z) == I(x, y, z)
  {
  }

  lemma MacroCallEffect(s: Machine, i: nat, block: seq<Byte>)
    requires i < 63 && |block| == 64 && s.Get(T1) == s.Get(Role(i, 3))
    ensures MacroEffect(s, Run(MacroCall(i), |MacroCall(i)|, s, block), Role(i, 0), Role(i, 1), Role(i, 2), Role(i, 3),
                        Mix(i, s.Get(Role(i, 1)), s.Get(Role(i, 2)), s.Get(Role(i, 3))), K(i), LoadLe(block, 4 * MSG(i + 1)), S(i))
  {
    hide Run, Machine.Get, LoadLe, MacroEffect, Role, Mix, F, G, H, I, K, S, MSG;
    RolesRotate(i);
    var a, b, c, d, next := Role(i, 0), Role(i, 1), Role(i, 2), Role(i, 3), 4 * MSG(i + 1);
    MixOfRound(i, s.Get(b), s.Get(c), s.Get(d));
    if i < 16 { FMacroRun(s, a, b, c, d, i, next, S(i), block); }
    else if i < 32 { GMacroRun(s, a, b, c, d, i, next, S(i), block); }
    else if i < 48 { HMacroRun(s, a, b, c, d, i, next, S(i), block); }
    else { IMacroRun(s, a, b, c, d, i, next, S(i), block); }
  }

  /** One step of the listing keeps the preload invariant and advances the roles by one RFC step. */
  lemma StepSimulates(s: Machine, r: State, i: nat, block: seq<Byte>)
    requires i < 63 && |block| == 64
    requires Loaded(s, r, i, BlockWords(block)[MSG(i)])
    ensures Loaded(Run(StepCode(i), |StepCode(i)|, s, block), Step(r, BlockWords(block), i), i + 1,
                   BlockWords(block)[MSG(i + 1)])
  {
    hide Run, StepCode, MacroCall, Machine.Get, LoadLe, Mix, K, S, MSG, Add, Rotl, StepWord, Role;
    StepCodeIsMacroCall(i);
    RolesRotate(i);
    MacroCallEffect(s, i, block);
    PreloadedStepWord(r, BlockWords(block)[MSG(i)], i);
  }

  lemma LastRoles()
    ensures Role(63, 0) == B && Role(63, 1) == C && Role(63, 2) == D && Role(63, 3) == A
    ensures |LastMacro(B, C, D, A, 63, S(63))| == 7
  {
    hide S;
  }

  /** The last step leaves every register exact. */
  lemma LastStepSimulates(s: Machine, r: State, block: seq<Byte>)
    requires |block| == 64
    requires Loaded(s, r, 63, BlockWords(block)[MSG(63)])
    ensures var s' := Run(StepCode(63), |StepCode(63)|, s, block);
            State(s'.a, s'.b, s'.c, s'.d) == Step(r, BlockWords(block), 63)
  {
    hide Run, StepCode, LoadLe, Mix, I, K, S, MSG, Add, Rotl, StepWord, Role, LastMacro, BlockWords;
    LastRoles();
    LastCodeIsMacro();
    LastMacroRun(s, B, C, D, A, 63, S(63), block);
    MixOfRound(63, r.b, r.c, r.d);
    PreloadedStepWord(r, BlockWords(block)[MSG(63)], 63);
  }

  // ---- The whole program ----

  /** Steps `i` to `j - 1` of the text, in order. */
  function Codes(i: nat, j: nat): seq<Instr>
    requires i <= j <= 64
    decreases j
  {
    if i == j then [] else Codes(i, j - 1) + StepCode(j - 1)
  }

  /** The first asm block: preamble and F rounds. */
  function Block1(): seq<Instr> {
    PREAMBLE + Codes(0, 16)
  }

  /** The second asm block: G, H and I rounds. */
  function Block2(): seq<Instr> {
    Codes(16, 64)
  }

  lemma {:induction false} CodesSimulate(s: Machine, r: State, i: nat, j: nat, block: seq<Byte>)
    requires i <= j <= 63 && |block| == 64
    requires Loaded(s, Steps(r, BlockWords(block), i), i, BlockWords(block)[MSG(i)])
    ensures Loaded(Run(Codes(i, j), |Codes(i, j)|, s, block), Steps(r, BlockWords(block), j), j, BlockWords(block)[MSG(j)])
    decreases j
  {
    hide Exec, Loaded, StepCode, BlockWords, MSG, Step;
    if i < j {
      CodesSimulate(s, r, i, j - 1, block);
      var p, q := Codes(i, j - 1), StepCode(j - 1);
      StepSimulates(Run(p, |p|, s, block), Steps(r, BlockWords(block), j - 1), j - 1, block);
      RunAppend(p, q, |q|, s, block);
    }
  }

  lemma PreambleLoads(s: Machine, block: seq<Byte>)
    requires |block| == 64
    ensures Loaded(Run(PREAMBLE, 2, s, block), State(s.a, s.b, s.c, s.d), 0, BlockWords(block)[MSG(0)])
  {
    hide Add, LoadLe;
  }

  lemma Block1Simulates(s: Machine, block: seq<Byte>)
    requires |block| == 64
    ensures var m := BlockWords(block);
            Loaded(Run(Block1(), |Block1()|, s, block), Steps(State(s.a, s.b, s.c, s.d), m, 16), 16, m[MSG(16)])
  {
    hide Exec, Loaded, StepCode, BlockWords, MSG, Step, Codes;
    PreambleLoads(s, block);
    var codes := Codes(0, 16);
    CodesSimulate(Run(PREAMBLE, 2, s, block), State(s.a, s.b, s.c, s.d), 0, 16, block);
    RunAppend(PREAMBLE, codes, |codes|, s, block);
  }

  /** After both blocks registers a to d hold the 64-step result, whatever the scratch registers held before. */
  lemma ProgramSimulates(s: Machine, block: seq<Byte>)
    requires |block| == 64
    ensures var s1 := Run(Block1(), |Block1()|, s, block);
            var s2 := Run(Block2(), |Block2()|, s1, block);
            State(s2.a, s2.b, s2.c, s2.d) == Steps(State(s.a, s.b, s.c, s.d), BlockWords(block), 64)
  {
    hide Exec, Loaded, StepCode, BlockWords, MSG, Step, Block1;
    Block1Simulates(s, block);
    var start := State(s.a, s.b, s.c, s.d);
    var s1 := Run(Block1(), |Block1()|, s, block);
    CodesSimulate(s1, start, 16, 63, block);
    var p, q := Codes(16, 63), StepCode(63);
    LastStepSimulates(Run(p, |p|, s1, block), Steps(start, BlockWords(block), 63), block);
    RunAppend(p, q, |q|, s1, block);
  }

  // ---- The kernel ----

  /** Executes one asm block: registers are overwritten instruction by instruction. */
  method RunAsm(code: seq<Instr>, s: Machine, block: seq<Byte>) returns (regs: Machine)
    requires |block| == 64
    ensures regs == Run(code, |code|, s, block)
  {
    hide Exec;
    regs := s;
    var pc := 0;
    while pc < |code|
      invariant 0 <= pc <= |code|
      invariant regs == Run(code, pc, s, block)
    {
      regs := Exec(code[pc], regs, block);
      pc := pc + 1;
    }
  }

  /** `transform`: both asm blocks, with scratch registers that start undefined, then the feed-forward. */
  method Transform(state: array<Word>, block: seq<Byte>)
    requires state.Length == 4 && |block| == 64
    modifies state
    ensures state[..] == Compress(StateOf(old(state[..])), block).Words()
  {
    hide Run, Block1, Block2, BlockWords, Compress, Steps, Sum, Add, State.Words;
    var sa, sb, sc, sd := state[0], state[1], state[2], state[3];
    var t1: Word, t2: Word := *, *;
    ghost var s := Machine(sa, sb, sc, sd, t1, t2);
    var regs := RunAsm(Block1(), Machine(sa, sb, sc, sd, t1, t2), block);
    regs := RunAsm(Block2(), regs, block);
    ProgramSimulates(s, block);
    CompressFrame(State(sa, sb, sc, sd), block);
    SumWords(State(sa, sb, sc, sd), State(regs.a, regs.b, regs.c, regs.d));
    state[0] := Add(sa, regs.a);
    state[1] := Add(sb, regs.b);
    state[2] := Add(sc, regs.c);
    state[3] := Add(sd, regs.d);
  }
}
