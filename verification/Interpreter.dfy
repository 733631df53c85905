/** The classic BPF interpreter. The reference is an ordinary jump machine over decoded instructions; the program
    proper cannot move its loop index, so it counts through all indices and skips up to the one it wants. */
module Interpreter {
  import opened Words
  import opened Steering
  import opened Bits
  import opened Bytes

  const BPF_MEMWORDS: nat := 16
  const UDP_HEADER: nat := 8
  const BPF_MAX_LOOPS: nat := 0x80_0000
  const SKF_AD_PROTOCOL: u32 := 0xffff_f000

  const IERR_INSTREXCEEDED: int := -3
  const IERR_BADINSTR: int := -4
  const IERR_SANITY: int := -5

  datatype SockFilter = SockFilter(code: u16, jt: u8, jf: u8, k: u32)

  /** What the program sees of a packet: the bytes from the UDP header on, and the protocol number in host order.
      `wild` is the outcome of a shift by 32 or more. */
  datatype Md = Md(data: seq<bv8>, protocol: u16, wild: (u32, u32) -> u32)

  datatype Regs = Regs(A: u32, X: u32, M: seq<u32>)

  // ---- instructions ----

  datatype Reg = RegA | RegX
  datatype Operand = FromX | FromK
  datatype Size = Word | Half | Byte
  datatype AluOp = Add | Sub | Mul | Div | Mod | And | Or | Xor | Lsh | Rsh
  datatype Cond = Gt | Ge | Eq | Set

  datatype Insn =
    | Tax | Txa
    | Store(src: Reg)
    | LoadAbs(size: Size) | LoadInd(size: Size) | LoadHeaderLength | Length
    | LoadImm(dst: Reg) | LoadMem(dst: Reg)
    | JumpAlways | JumpIf(cond: Cond, from: Operand)
    | Negate | Alu(op: AluOp, from: Operand)
    | RetK | RetX | RetA
    | Unknown

  function SizeOf(bits: nat): Option<Size> {
    match bits
    case 0 => Some(Word) case 1 => Some(Half) case 2 => Some(Byte)
    case _ => None
  }

  function AluOpOf(bits: nat): Option<AluOp> {
    match bits
    case 0 => Some(Add) case 1 => Some(Sub) case 2 => Some(Mul) case 3 => Some(Div) case 4 => Some(Or)
    case 5 => Some(And) case 6 => Some(Lsh) case 7 => Some(Rsh) case 9 => Some(Mod) case 10 => Some(Xor)
    case _ => None
  }

  function CondOf(bits: nat): Option<Cond> {
    match bits
    case 1 => Some(Eq) case 2 => Some(Gt) case 3 => Some(Ge) case 4 => Some(Set)
    case _ => None
  }

  function DecodeLoad(mode: nat, size: Option<Size>): Insn {
    if mode == 1 && size.Some? then LoadAbs(size.value)
    else if mode == 2 && size.Some? then LoadInd(size.value)
    else if size != Some(Word) then Unknown
    else if mode == 0 then LoadImm(RegA)
    else if mode == 3 then LoadMem(RegA)
    else if mode == 4 then Length
    else Unknown
  }

  /** The length load of this class, too, goes to A. */
  function DecodeLoadX(mode: nat, size: Option<Size>): Insn {
    if mode == 5 && size == Some(Byte) then LoadHeaderLength
    else if size != Some(Word) then Unknown
    else if mode == 0 then LoadImm(RegX)
    else if mode == 3 then LoadMem(RegX)
    else if mode == 4 then Length
    else Unknown
  }

  function DecodeAlu(op: nat, from: Operand): Insn {
    if op == 8 then (if from == FromK then Negate else Unknown)
    else if AluOpOf(op).Some? then Alu(AluOpOf(op).value, from)
    else Unknown
  }

  function DecodeJump(op: nat, from: Operand): Insn {
    if op == 0 then (if from == FromK then JumpAlways else Unknown)
    else if CondOf(op).Some? then JumpIf(CondOf(op).value, from)
    else Unknown
  }

  function SourceOf(code: u16): Operand {
    if code / 8 % 2 == 1 then FromX else FromK
  }

  /** The layout of a classic BPF opcode: class in bits 0 to 2, then size and mode, or source and operation. */
  function Decode(code: u16): Insn {
    match code % 8
    case 0 => DecodeLoad(code / 32, SizeOf(code / 8 % 4))
    case 1 => DecodeLoadX(code / 32, SizeOf(code / 8 % 4))
    case 2 => if code == 2 then Store(RegA) else Unknown
    case 3 => if code == 3 then Store(RegX) else Unknown
    case 4 => DecodeAlu(code / 16, SourceOf(code))
    case 5 => DecodeJump(code / 16, SourceOf(code))
    case 6 => if code == 0x06 then RetK else if code == 0x0e then RetX else if code == 0x16 then RetA else Unknown
    case _ => if code == 0x07 then Tax else if code == 0x87 then Txa else Unknown
  }

  /** Opcodes by what they do. */
  const MOVES: set<u16> := {0x07, 0x87, 0x02, 0x03, 0x80, 0x81, 0x00, 0x01, 0x60, 0x61}
  const LOADS: set<u16> := {0x20, 0x28, 0x30, 0x40, 0x48, 0x50, 0xb1}
  const JUMPS: set<u16> := {0x05, 0x2d, 0x25, 0x3d, 0x35, 0x1d, 0x15, 0x4d, 0x45}
  const SUMS: set<u16> := {0x0c, 0x04, 0x1c, 0x14, 0x2c, 0x24, 0x3c, 0x34, 0x9c, 0x94}
  const SHIFTS: set<u16> := {0x6c, 0x64, 0x7c, 0x74}
  const BITS: set<u16> := {0x5c, 0x54, 0x4c, 0x44, 0xac, 0xa4}
  const RETURNS: set<u16> := {0x06, 0x0e, 0x16}

  predicate Known(code: u16) {
    code in MOVES || code in LOADS || code in JUMPS || code == 0x84 || code in SUMS || code in BITS ||
      code in SHIFTS || code in RETURNS
  }

  lemma MoveTable()
    ensures Decode(0x07) == Tax && Decode(0x87) == Txa && Decode(0x02) == Store(RegA) && Decode(0x03) == Store(RegX)
    ensures Decode(0x80) == Length && Decode(0x81) == Length && Decode(0x00) == LoadImm(RegA)
    ensures Decode(0x01) == LoadImm(RegX)
    ensures Decode(0x60) == LoadMem(RegA) && Decode(0x61) == LoadMem(RegX)
  {
  }

  lemma LoadTable()
    ensures Decode(0x20) == LoadAbs(Word) && Decode(0x28) == LoadAbs(Half) && Decode(0x30) == LoadAbs(Byte)
    ensures Decode(0x40) == LoadInd(Word) && Decode(0x48) == LoadInd(Half) && Decode(0x50) == LoadInd(Byte)
    ensures Decode(0xb1) == LoadHeaderLength
  {
  }

  lemma JumpTable()
    ensures Decode(0x05) == JumpAlways
    ensures Decode(0x2d) == JumpIf(Gt, FromX) && Decode(0x25) == JumpIf(Gt, FromK)
    ensures Decode(0x3d) == JumpIf(Ge, FromX) && Decode(0x35) == JumpIf(Ge, FromK)
    ensures Decode(0x1d) == JumpIf(Eq, FromX) && Decode(0x15) == JumpIf(Eq, FromK)
    ensures Decode(0x4d) == JumpIf(Set, FromX) && Decode(0x45) == JumpIf(Set, FromK)
  {
  }

  lemma SumTable()
    ensures Decode(0x0c) == Alu(Add, FromX) && Decode(0x04) == Alu(Add, FromK) && Decode(0x1c) == Alu(Sub, FromX)
    ensures Decode(0x14) == Alu(Sub, FromK)
    ensures Decode(0x2c) == Alu(Mul, FromX) && Decode(0x24) == Alu(Mul, FromK) && Decode(0x3c) == Alu(Div, FromX)
    ensures Decode(0x34) == Alu(Div, FromK)
    ensures Decode(0x9c) == Alu(Mod, FromX) && Decode(0x94) == Alu(Mod, FromK)
  {
  }

  lemma ShiftTable()
    ensures Decode(0x6c) == Alu(Lsh, FromX) && Decode(0x64) == Alu(Lsh, FromK) && Decode(0x7c) == Alu(Rsh, FromX)
    ensures Decode(0x74) == Alu(Rsh, FromK)
  {
  }

  lemma BitTable()
    ensures Decode(0x5c) == Alu(And, FromX) && Decode(0x54) == Alu(And, FromK) && Decode(0x4c) == Alu(Or, FromX)
    ensures Decode(0x44) == Alu(Or, FromK)
    ensures Decode(0xac) == Alu(Xor, FromX) && Decode(0xa4) == Alu(Xor, FromK)
  {
  }

  lemma NegateCode()
    ensures Decode(0x84) == Negate
  {
  }

  lemma ReturnTable()
    ensures Decode(0x06) == RetK && Decode(0x0e) == RetX && Decode(0x16) == RetA
  {
  }

  /** There are no other opcodes. */
  lemma OthersUnknown(code: u16)
    requires !Known(code)
    ensures Decode(code) == Unknown
  {
    hide DecodeLoad, DecodeLoadX, DecodeAlu, DecodeJump;
    if code % 8 == 0 || code % 8 == 1 {
      OtherLoads(code);
    } else if code % 8 == 4 {
      OtherAlus(code);
    } else if code % 8 == 5 {
      OtherJumps(code);
    }
  }

  lemma OtherLoads(code: u16)
    requires code !in MOVES && code !in LOADS
    ensures code % 8 == 0 ==> DecodeLoad(code / 32, SizeOf(code / 8 % 4)) == Unknown
    ensures code % 8 == 1 ==> DecodeLoadX(code / 32, SizeOf(code / 8 % 4)) == Unknown
  {
    assert code == 8 * (code / 8) + code % 8;
    assert code / 8 == 4 * (code / 32) + code / 8 % 4;
  }

  lemma OtherAlus(code: u16)
    requires code != 0x84 && code !in SUMS && code !in BITS && code !in SHIFTS
    ensures code % 8 == 4 ==> DecodeAlu(code / 16, SourceOf(code)) == Unknown
  {
    assert code == 8 * (code / 8) + code % 8;
    assert code / 8 == 2 * (code / 16) + code / 8 % 2;
  }

  lemma OtherJumps(code: u16)
    requires code !in JUMPS
    ensures code % 8 == 5 ==> DecodeJump(code / 16, SourceOf(code)) == Unknown
  {
    assert code == 8 * (code / 8) + code % 8;
    assert code / 8 == 2 * (code / 16) + code / 8 % 2;
  }

  // ---- one instruction ----

  function MemSlot(k: u32): (i: nat)
    ensures i < BPF_MEMWORDS
  {
    k % BPF_MEMWORDS
  }

  /** The `n` packet bytes at `off` past the UDP header, in unsigned 32-bit arithmetic. */
  function PacketBytes(md: Md, off: u32, n: nat): (r: Option<seq<bv8>>)
    ensures r.Some? ==> |r.value| == n
  {
    var at := (off + UDP_HEADER) % TWO32;
    if at > 0x7fff_ffff || at + n > |md.data| then None else Some(md.data[at..at + n])
  }

  function Width(size: Size): nat {
    match size
    case Word => 4 case Half => 2 case Byte => 1
  }

  /** A load: the bytes as a number, big end first. */
  function Load(md: Md, off: u32, size: Size): Option<u32> {
    match PacketBytes(md, off, Width(size))
    case None => None
    case Some(b) =>
      FitsWord(b);
      Some(Value(b))
  }

  lemma FitsWord(b: seq<bv8>)
    requires |b| <= 4
    ensures Value(b) < TWO32
  {
    hide N;
    assert Pow256(4) == 256 * Pow256(3) && Pow256(3) == 256 * Pow256(2) && Pow256(2) == 256 * Pow256(1);
    assert Pow256(1) == 256 && Pow256(0) == 1;
  }

  function LoadAt(md: Md, off: u32, size: Size): Option<u32> {
    if size == Half && off == SKF_AD_PROTOCOL then Some(md.protocol) else Load(md, off, size)
  }

  function LengthOf(md: Md): u32 {
    (|md.data| - UDP_HEADER) % TWO32
  }

  function BitOp(g: Gate, a: u32, b: u32): u32 {
    PowTable();
    Bitwise(g, a, b, 32)
  }

  function Left(a: u32, b: u32, wild: (u32, u32) -> u32): u32 {
    if b < 32 then a * Pow2(b) % TWO32 else wild(a, b)
  }

  function Quotient(a: u32, b: nat): u32
    requires b > 0
  {
    Shrinks(a, b);
    a / b
  }

  lemma Shrinks(a: nat, b: nat)
    requires b > 0
    ensures 0 <= a / b <= a
  {
    var q, r := a / b, a % b;
    Fundamental(a, b, q, r);
  }

  lemma Fundamental(a: nat, b: nat, q: int, r: nat)
    requires b > 0 && a == b * q + r && r < b
    ensures 0 <= q <= a
  {
    assert q < 0 ==> b * q <= 0 - b;
    assert q >= 0 ==> b * q >= q;
  }

  function Right(a: u32, b: u32, wild: (u32, u32) -> u32): u32 {
    hide Pow2;
    if b < 32 then Quotient(a, Pow2(b)) else wild(a, b)
  }

  function AluResult(op: AluOp, a: u32, b: u32, wild: (u32, u32) -> u32): Option<u32> {
    match op
    case Add => Some((a + b) % TWO32)
    case Sub => Some((a - b) % TWO32)
    case Mul => Some(a * b % TWO32)
    case Div => if b == 0 then None else Some(Quotient(a, b))
    case Mod => if b == 0 then None else Some(a % b)
    case And => Some(BitOp(AndGate, a, b))
    case Or => Some(BitOp(OrGate, a, b))
    case Xor => Some(BitOp(XorGate, a, b))
    case Lsh => Some(Left(a, b, wild))
    case Rsh => Some(Right(a, b, wild))
  }

  predicate Holds(c: Cond, a: u32, b: u32) {
    match c
    case Gt => a > b
    case Ge => a >= b
    case Eq => a == b
    case Set => BitOp(AndGate, a, b) != 0
  }

  /** The effect of an instruction: go on, jump by a distance, or stop. */
  datatype Effect = Go(r: Regs) | Jump(dist: nat) | Stop(code: int) | Return(value: u32)

  function SetA(r: Regs, v: Option<u32>): Effect {
    if v.Some? then Go(r.(A := v.value)) else Stop(IERR_LOAD)
  }

  function Exec(f: SockFilter, r: Regs, md: Md): (e: Effect)
    requires |r.M| == BPF_MEMWORDS
    ensures e.Go? ==> |e.r.M| == BPF_MEMWORDS
  {
    match Decode(f.code)
    case Tax => Go(r.(X := r.A))
    case Txa => Go(r.(A := r.X))
    case Store(src) => Go(r.(M := r.M[MemSlot(f.k) := if src == RegA then r.A else r.X]))
    case LoadAbs(size) => SetA(r, LoadAt(md, f.k, size))
    case LoadInd(size) => SetA(r, Load(md, (r.X + f.k) % TWO32, size))
    case LoadHeaderLength =>
      (match Load(md, f.k, Byte)
       case None => Stop(IERR_LOAD)
       case Some(v) => Go(r.(X := 4 * (v % 16))))
    case Length => Go(r.(A := LengthOf(md)))
    case LoadImm(dst) => Go(if dst == RegA then r.(A := f.k) else r.(X := f.k))
    case LoadMem(dst) => Go(if dst == RegA then r.(A := r.M[MemSlot(f.k)]) else r.(X := r.M[MemSlot(f.k)]))
    case JumpAlways => Jump(f.k)
    case JumpIf(c, from) => Jump(if Holds(c, r.A, if from == FromX then r.X else f.k) then f.jt else f.jf)
    case Negate => Go(r.(A := (0 - r.A) % TWO32))
    case Alu(op, from) =>
      (match AluResult(op, r.A, if from == FromX then r.X else f.k, md.wild)
       case None => Stop(IERR_BADINSTR)
       case Some(v) => Go(r.(A := v)))
    case RetK => Return(f.k)
    case RetX => Return(r.X)
    case RetA => Return(r.A)
    case Unknown => Stop(IERR_BADINSTR)
  }

  // ---- the jump machine ----

  /** An unsigned word read as a C int. */
  function AsInt(v: u32): int {
    if v < 0x8000_0000 then v else v - TWO32
  }

  function ZeroRegs(): Regs {
    Regs(0, 0, seq(BPF_MEMWORDS, _ => 0))
  }

  /** The target of a jump from `pc`: never back, and past 2^32 around to the start. */
  function Target(pc: nat, dist: nat): (t: nat)
    ensures t > pc
  {
    Max(pc + 1, (1 + pc + dist) % TWO32)
  }

  /** The run from `pc` on; `old` is the return value if the program sets none. */
  function Run(prog: seq<SockFilter>, len: nat, pc: nat, r: Regs, md: Md, old_: int): Ran
    requires |prog| == MAX_INSTR && |r.M| == BPF_MEMWORDS
    decreases len - pc
  {
    if pc >= len then Ran(IERR_INSTREXCEEDED, old_)
    else if pc >= MAX_INSTR then Ran(IERR_SANITY, old_)
    else
      match Exec(prog[pc], r, md)
      case Go(r') => Run(prog, len, pc + 1, r', md, old_)
      case Jump(dist) => Run(prog, len, Target(pc, dist), r, md, old_)
      case Stop(code) => Ran(code, old_)
      case Return(v) => Ran(IERR_OK, AsInt(v))
  }

  /** The addresses that a run executes, in order. */
  ghost function Trace(prog: seq<SockFilter>, len: nat, pc: nat, r: Regs, md: Md): seq<nat>
    requires |prog| == MAX_INSTR && |r.M| == BPF_MEMWORDS
    decreases len - pc
  {
    if pc >= len || pc >= MAX_INSTR then []
    else
      [pc] +
      match Exec(prog[pc], r, md)
      case Go(r') => Trace(prog, len, pc + 1, r', md)
      case Jump(dist) => Trace(prog, len, Target(pc, dist), r, md)
      case _ => []
  }

  /** Strictly increasing addresses from `lo` on, below `end`. */
  ghost predicate Rising(t: seq<nat>, lo: nat, end: nat) {
    && (forall i :: 0 <= i < |t| ==> lo <= t[i] < end)
    && (forall i, j :: 0 <= i < j < |t| ==> t[i] < t[j])
    && |t| <= Max(0, end - lo)
  }

  lemma RisingFrom(pc: nat, t: seq<nat>, lo: nat, end: nat)
    requires pc < lo && pc < end && Rising(t, lo, end)
    ensures Rising([pc] + t, pc, end)
  {
  }

  /** A run executes strictly increasing addresses, so no more instructions than the program has. */
  lemma {:induction false} TraceIncreases(prog: seq<SockFilter>, len: nat, pc: nat, r: Regs, md: Md)
    requires |prog| == MAX_INSTR && |r.M| == BPF_MEMWORDS
    ensures Rising(Trace(prog, len, pc, r, md), pc, Min(len, MAX_INSTR))
    decreases len - pc
  {
    hide Exec, Rising;
    var end := Min(len, MAX_INSTR);
    if pc < len && pc < MAX_INSTR {
      match Exec(prog[pc], r, md)
      case Go(r') =>
        TraceIncreases(prog, len, pc + 1, r', md);
        RisingFrom(pc, Trace(prog, len, pc + 1, r', md), pc + 1, end);
      case Jump(dist) =>
        TraceIncreases(prog, len, Target(pc, dist), r, md);
        RisingFrom(pc, Trace(prog, len, Target(pc, dist), r, md), Target(pc, dist), end);
      case _ =>
        NoneRises(pc + 1, end);
        RisingFrom(pc, [], pc + 1, end);
    } else {
      NoneRises(pc, end);
    }
  }

  lemma NoneRises(lo: nat, end: nat)
    ensures Rising([], lo, end)
  {
  }

  // ---- the program as it runs ----

  class InterpretCtx {
    const md: Md
    const filter: seq<SockFilter>
    const M: array<u32>
    var A: u32
    var X: u32
    var retval: int
    var retcode: int
    var nextIndex: u32

    ghost predicate Valid()
      reads this
    {
      M.Length == BPF_MEMWORDS && |filter| == MAX_INSTR
    }

    ghost function State(): (r: Regs)
      requires Valid()
      reads this, M
      ensures |r.M| == BPF_MEMWORDS
    {
      Regs(A, X, M[..])
    }

    ghost function At(): (p: Point)
      requires Valid()
      reads this, M
      ensures |p.r.M| == BPF_MEMWORDS
    {
      Point(State(), retcode, retval, nextIndex)
    }

    constructor (md: Md, filter: seq<SockFilter>, retval: int)
      requires |filter| == MAX_INSTR
      ensures Valid() && At() == Point(ZeroRegs(), IERR_INSTREXCEEDED, retval, 0)
      ensures this.md == md && this.filter == filter && fresh(M)
    {
      this.md, this.filter, this.retval := md, filter, retval;
      A, X, retcode, nextIndex := 0, 0, IERR_INSTREXCEEDED, 0;
      M := new u32[16](_ => 0);
      new;
      assert M[..] == ZeroRegs().M;
    }

    /** extract_u32, extract_u16 and extract_u8: false when the bytes are not there. */
    method Extract(off: u32, size: Size) returns (ok: bool, v: u32)
      requires Valid()
      modifies `retcode
      ensures ok <==> Load(md, off, size).Some?
      ensures if ok then v == Load(md, off, size).value && retcode == old(retcode) else retcode == IERR_LOAD
    {
      hide PacketBytes, N, Value;
      var loaded := PacketBytes(md, off, Width(size));
      if loaded.None? {
        retcode := IERR_LOAD;
        return false, 0;
      }
      var b := loaded.value;
      match size {
        case Word =>
          ValueOfFour(b);
          v := ((N(b[0]) * 256 + N(b[1])) * 256 + N(b[2])) * 256 + N(b[3]);
        case Half =>
          ValueOfTwo(b);
          v := N(b[0]) * 256 + N(b[1]);
        case Byte =>
          ValueOfOne(b);
          v := N(b[0]);
      }
      return true, v;
    }

    /** One call of the loop body; true to break. */
    method Step(index: u32) returns (stop: bool)
      requires Valid()
      modifies this, M
      ensures StepDid(filter, md, index, old(At()), At(), stop)
    {
      hide Exec, MOVES, LOADS, JUMPS, SUMS, BITS, SHIFTS, RETURNS;
      if index < nextIndex {
        return false;
      }
      if index >= MAX_INSTR {
        retcode := IERR_SANITY;
        return true;
      }
      var f := filter[index];
      if f.code in MOVES {
        Move(f, index);
        return false;
      } else if f.code in LOADS {
        stop := LoadFrom(f, index);
      } else if f.code in JUMPS {
        Branch(f, index);
        return false;
      } else if f.code == 0x84 || f.code in SUMS || f.code in BITS || f.code in SHIFTS {
        stop := Arithmetic(f, index);
      } else if f.code in RETURNS {
        GiveBack(f, index);
        return true;
      } else {
        OthersStop(f, State(), md);
        retcode := IERR_BADINSTR;
        return true;
      }
    }

    method Move(f: SockFilter, ghost index: u32)
      requires Valid() && f.code in MOVES
      modifies `A, `X, M
      ensures Did(Exec(f, old(State()), md), index, false, old(At()), At())
    {
      hide Decode;
      MoveTable();
      var K := f.k;
      match f.code {
        case 0x07 => X := A;
        case 0x87 => A := X;
        case 0x02 => M[MemSlot(K)] := A;
        case 0x03 => M[MemSlot(K)] := X;
        case 0x80 => A := LengthOf(md);
        case 0x81 => A := LengthOf(md);
        case 0x00 => A := K;
        case 0x01 => X := K;
        case 0x60 => A := M[MemSlot(K)];
        case 0x61 => X := M[MemSlot(K)];
      }
    }

    method LoadFrom(f: SockFilter, ghost index: u32) returns (stop: bool)
      requires Valid() && f.code in LOADS
      modifies `A, `X, `retcode
      ensures Did(Exec(f, old(State()), md), index, stop, old(At()), At())
    {
      hide Decode, Load;
      LoadTable();
      var K := f.k;
      var ok, v;
      match f.code {
        case 0x20 => ok, v := Extract(K, Word);
        case 0x28 =>
          if K == SKF_AD_PROTOCOL {
            ok, v := true, md.protocol;
          } else {
            ok, v := Extract(K, Half);
          }
        case 0x30 => ok, v := Extract(K, Byte);
        case 0x40 => ok, v := Extract((X + K) % TWO32, Word);
        case 0x48 => ok, v := Extract((X + K) % TWO32, Half);
        case 0x50 => ok, v := Extract((X + K) % TWO32, Byte);
        case 0xb1 =>
          ok, v := Extract(K, Byte);
          if ok {
            X := v;
            X := 4 * (X % 16);
          }
          return !ok;
      }
      if ok {
        A := v;
      }
      return !ok;
    }

    method Branch(f: SockFilter, index: u32)
      requires Valid() && f.code in JUMPS
      modifies `nextIndex
      ensures Did(Exec(f, old(State()), md), index, false, old(At()), At())
    {
      hide Decode, Holds;
      if f.code == 0x05 {
        JumpTable();
        nextIndex := (1 + index + f.k) % TWO32;
      } else {
        var taken := Taken(f);
        nextIndex := (1 + index + if taken then f.jt else f.jf) % TWO32;
      }
    }

    method Taken(f: SockFilter) returns (taken: bool)
      requires f.code in JUMPS && f.code != 0x05
      ensures var i := Decode(f.code); i.JumpIf? && taken == Holds(i.cond, A, if i.from == FromX then X else f.k)
    {
      hide Decode, BitOp;
      JumpTable();
      var K := f.k;
      match f.code {
        case 0x2d => return A > X;
        case 0x25 => return A > K;
        case 0x3d => return A >= X;
        case 0x35 => return A >= K;
        case 0x1d => return A == X;
        case 0x15 => return A == K;
        case 0x4d => return BitOp(AndGate, A, X) != 0;
        case 0x45 => return BitOp(AndGate, A, K) != 0;
      }
    }

    method Arithmetic(f: SockFilter, ghost index: u32) returns (stop: bool)
      requires Valid() && (f.code == 0x84 || f.code in SUMS || f.code in BITS || f.code in SHIFTS)
      modifies `A, `retcode
      ensures Did(Exec(f, old(State()), md), index, stop, old(At()), At())
    {
      hide Decode, AluResult;
      if f.code == 0x84 {
        assert Decode(0x84) == Negate by {
          NegateCode();
        }
        A := (0 - A) % TWO32;
        return false;
      }
      var v;
      if f.code in SUMS {
        v := Compute(f);
      } else if f.code in BITS {
        v := ComputeBits(f);
      } else {
        v := Shift(f);
      }
      if v.None? {
        retcode := IERR_BADINSTR;
        return true;
      }
      A := v.value;
      return false;
    }

    /** The new value of A, None for a division by zero. */
    method Compute(f: SockFilter) returns (v: Option<u32>)
      requires f.code in SUMS
      ensures var i := Decode(f.code); i.Alu? && v == AluResult(i.op, A, if i.from == FromX then X else f.k, md.wild)
    {
      hide Decode;
      SumTable();
      var K := f.k;
      match f.code {
        case 0x0c => return Some((A + X) % TWO32);
        case 0x04 => return Some((A + K) % TWO32);
        case 0x1c => return Some((A - X) % TWO32);
        case 0x14 => return Some((A - K) % TWO32);
        case 0x2c => return Some(A * X % TWO32);
        case 0x24 => return Some(A * K % TWO32);
        case _ => v := Divide(f.code, A, if f.code == 0x3c || f.code == 0x9c then X else K);
      }
    }

    method Divide(code: u16, a: u32, b: u32) returns (v: Option<u32>)
      requires code in {0x3c, 0x9c, 0x34, 0x94}
      ensures v == AluResult(if code == 0x3c || code == 0x34 then Div else Mod, a, b, md.wild)
    {
      if b == 0 {
        return None;
      }
      Shrinks(a, b);
      if code == 0x3c || code == 0x34 {
        return Some(a / b);
      }
      return Some(a % b);
    }

    method Shift(f: SockFilter) returns (v: Option<u32>)
      requires f.code in SHIFTS
      ensures var i := Decode(f.code); i.Alu? && v == AluResult(i.op, A, if i.from == FromX then X else f.k, md.wild)
    {
      hide Decode, Left, Right;
      ShiftTable();
      var K := f.k;
      match f.code {
        case 0x6c => return Some(Left(A, X, md.wild));
        case 0x64 => return Some(Left(A, K, md.wild));
        case 0x7c => return Some(Right(A, X, md.wild));
        case 0x74 => return Some(Right(A, K, md.wild));
      }
    }

    method ComputeBits(f: SockFilter) returns (v: Option<u32>)
      requires f.code in BITS
      ensures var i := Decode(f.code); i.Alu? && v == AluResult(i.op, A, if i.from == FromX then X else f.k, md.wild)
    {
      hide Decode, BitOp;
      BitTable();
      var K := f.k;
      match f.code {
        case 0x5c => return Some(BitOp(AndGate, A, X));
        case 0x54 => return Some(BitOp(AndGate, A, K));
        case 0x4c => return Some(BitOp(OrGate, A, X));
        case 0x44 => return Some(BitOp(OrGate, A, K));
        case 0xac => return Some(BitOp(XorGate, A, X));
        case 0xa4 => return Some(BitOp(XorGate, A, K));
      }
    }

    method GiveBack(f: SockFilter, ghost index: u32)
      requires Valid() && f.code in RETURNS
      modifies `retcode, `retval
      ensures Did(Exec(f, old(State()), md), index, true, old(At()), At())
    {
      hide Decode, AsInt;
      ReturnTable();
      retcode := IERR_OK;
      match f.code {
        case 0x06 => retval := AsInt(f.k);
        case 0x0e => retval := AsInt(X);
        case 0x16 => retval := AsInt(A);
      }
    }
  }

  lemma ValueOfOne(b: seq<bv8>)
    requires |b| == 1
    ensures Value(b) == N(b[0])
  {
    hide N, Value;
    LastDigit(b);
    NoDigits(0);
    assert b[..0] == Digits(0, 0);
  }

  lemma ValueOfTwo(b: seq<bv8>)
    requires |b| == 2
    ensures Value(b) == N(b[0]) * 256 + N(b[1])
  {
    hide N, Value;
    LastDigit(b);
    ValueOfOne(b[..1]);
  }

  lemma ValueOfFour(b: seq<bv8>)
    requires |b| == 4
    ensures Value(b) == ((N(b[0]) * 256 + N(b[1])) * 256 + N(b[2])) * 256 + N(b[3])
  {
    hide N, Value;
    LastDigit(b);
    LastDigit(b[..3]);
    assert b[..3][..2] == b[..2];
    ValueOfTwo(b[..2]);
  }

  lemma OthersStop(f: SockFilter, r: Regs, md: Md)
    requires |r.M| == BPF_MEMWORDS && !Known(f.code)
    ensures Exec(f, r, md) == Stop(IERR_BADINSTR)
  {
    hide Decode;
    OthersUnknown(f.code);
  }

  /** A state of the interpreter. */
  datatype Point = Point(r: Regs, code: int, val: int, next: u32)

  /** The whole of one call of the loop body. */
  ghost predicate StepDid(filter: seq<SockFilter>, md: Md, index: u32, p: Point, q: Point, stop: bool)
    requires |filter| == MAX_INSTR && |p.r.M| == BPF_MEMWORDS
  {
    if index < p.next then !stop && q == p
    else if index >= MAX_INSTR then stop && q.code == IERR_SANITY && q.val == p.val
    else Did(Exec(filter[index], p.r, md), index, stop, p, q)
  }

  /** What the loop body did is the effect of the instruction. */
  ghost predicate Did(e: Effect, index: u32, stop: bool, p: Point, q: Point) {
    match e
    case Go(r) => !stop && q == p.(r := r)
    case Jump(dist) => !stop && q == p.(next := (1 + index + dist) % TWO32)
    case Stop(code) => stop && q.code == code && q.val == p.val
    case Return(v) => stop && q.code == IERR_OK && q.val == AsInt(v)
  }

  /** interpret_cbpf: the skipping loop gives the code and the value of the jump machine, and executes the
      addresses of its trace. */
  method InterpretCbpf(md: Md, filter: seq<SockFilter>, filterLen: u32, old_: int)
    returns (ran: Ran, ghost trace: seq<nat>)
    requires |filter| == MAX_INSTR
    ensures ran == Interpret(filter, filterLen, md, old_)
    ensures trace == Executed(filter, filterLen, md)
  {
    var c := new InterpretCtx(md, filter, old_);
    trace := [];
    if filterLen <= BPF_MAX_LOOPS {
      hide StepDid, OnCourse, Interpret, Executed, Passed, ZeroRegs;
      CourseStarts(filter, filterLen, md, old_);
      var i := 0;
      while i < filterLen
        invariant i <= filterLen && c.Valid() && c.md == md && c.filter == filter && fresh(c) && fresh(c.M)
        invariant OnCourse(filter, filterLen, i, c.At(), md, old_, trace)
      {
        ghost var p := c.At();
        var stop := c.Step(i);
        CourseStep(filter, filterLen, i, stop, p, c.At(), md, old_, trace);
        trace := if i < p.next then trace else Passed(trace, i);
        if stop {
          return Ran(c.retcode, c.retval), trace;
        }
        i := i + 1;
      }
      CourseEnds(filter, filterLen, i, c.At(), md, old_, trace);
    }
    return Ran(c.retcode, c.retval), trace;
  }

  /** The loop at index `i` is where the jump machine is at the later of `i` and the wanted index. */
  ghost predicate OnCourse(prog: seq<SockFilter>, len: u32, i: nat, p: Point, md: Md, old_: int, trace: seq<nat>)
    requires |prog| == MAX_INSTR && |p.r.M| == BPF_MEMWORDS && len <= BPF_MAX_LOOPS
  {
    && p.code == IERR_INSTREXCEEDED && p.val == old_
    && Run(prog, len, Max(i, p.next), p.r, md, old_) == Run(prog, len, 0, ZeroRegs(), md, old_)
    && trace + Trace(prog, len, Max(i, p.next), p.r, md) == Trace(prog, len, 0, ZeroRegs(), md)
  }

  lemma CourseStarts(prog: seq<SockFilter>, len: u32, md: Md, old_: int)
    requires |prog| == MAX_INSTR && len <= BPF_MAX_LOOPS
    ensures OnCourse(prog, len, 0, Point(ZeroRegs(), IERR_INSTREXCEEDED, old_, 0), md, old_, [])
  {
    hide Run, Trace;
  }

  lemma CourseSkips(prog: seq<SockFilter>, len: u32, i: nat, p: Point, md: Md, old_: int, trace: seq<nat>)
    requires |prog| == MAX_INSTR && |p.r.M| == BPF_MEMWORDS && len <= BPF_MAX_LOOPS
    requires i < p.next && OnCourse(prog, len, i, p, md, old_, trace)
    ensures OnCourse(prog, len, i + 1, p, md, old_, trace)
  {
    hide Run, Trace;
  }

  lemma CourseEnds(prog: seq<SockFilter>, len: u32, i: nat, p: Point, md: Md, old_: int, trace: seq<nat>)
    requires |prog| == MAX_INSTR && |p.r.M| == BPF_MEMWORDS && len <= BPF_MAX_LOOPS
    requires i >= len && OnCourse(prog, len, i, p, md, old_, trace)
    ensures Ran(p.code, p.val) == Interpret(prog, len, md, old_) && trace == Executed(prog, len, md)
  {
    hide Run, Trace;
    RunOut(prog, len, Max(i, p.next), p.r, md, old_);
  }

  lemma CourseStep(prog: seq<SockFilter>, len: u32, i: u32, stop: bool, p: Point, q: Point, md: Md, old_: int,
      trace: seq<nat>)
    requires |prog| == MAX_INSTR && |p.r.M| == |q.r.M| == BPF_MEMWORDS && len <= BPF_MAX_LOOPS && i < len
    requires StepDid(prog, md, i, p, q, stop) && OnCourse(prog, len, i, p, md, old_, trace)
    ensures var trace' := if i < p.next then trace else Passed(trace, i);
      && (stop ==> Ran(q.code, q.val) == Interpret(prog, len, md, old_) && trace' == Executed(prog, len, md))
      && (!stop ==> OnCourse(prog, len, i + 1, q, md, old_, trace'))
  {
    hide OnCourse, Passed, Exec, Did, Interpret, Executed;
    if i < p.next {
      CourseSkips(prog, len, i, p, md, old_, trace);
    } else {
      CourseNext(prog, len, i, stop, p, q, md, old_, trace);
    }
  }

  lemma CourseNext(prog: seq<SockFilter>, len: u32, pc: u32, stop: bool, p: Point, q: Point, md: Md, old_: int,
      trace: seq<nat>)
    requires |prog| == MAX_INSTR && |p.r.M| == |q.r.M| == BPF_MEMWORDS && len <= BPF_MAX_LOOPS && p.next <= pc < len
    requires if pc >= MAX_INSTR then stop && q.code == IERR_SANITY && q.val == p.val
      else Did(Exec(prog[pc], p.r, md), pc, stop, p, q)
    requires OnCourse(prog, len, pc, p, md, old_, trace)
    ensures stop ==>
      Ran(q.code, q.val) == Interpret(prog, len, md, old_) && Passed(trace, pc) == Executed(prog, len, md)
    ensures !stop ==> OnCourse(prog, len, pc + 1, q, md, old_, Passed(trace, pc))
  {
    hide Run, Trace, Passed, Exec, Did;
    RunNext(prog, len, pc, stop, p, q, md);
    TraceNext(prog, len, pc, stop, p, q, md, trace);
  }

  ghost function Executed(filter: seq<SockFilter>, filterLen: u32, md: Md): seq<nat>
    requires |filter| == MAX_INSTR
  {
    if filterLen > BPF_MAX_LOOPS then [] else Trace(filter, filterLen, 0, ZeroRegs(), md)
  }

  /** The result of a program. A count past the kernel's loop limit runs nothing at all. */
  function Interpret(filter: seq<SockFilter>, filterLen: u32, md: Md, old_: int): Ran
    requires |filter| == MAX_INSTR
  {
    if filterLen > BPF_MAX_LOOPS then Ran(IERR_INSTREXCEEDED, old_) else Run(filter, filterLen, 0, ZeroRegs(), md, old_)
  }

  lemma RunOut(prog: seq<SockFilter>, len: nat, pc: nat, r: Regs, md: Md, old_: int)
    requires |prog| == MAX_INSTR && |r.M| == BPF_MEMWORDS && pc >= len
    ensures Run(prog, len, pc, r, md, old_) == Ran(IERR_INSTREXCEEDED, old_) && Trace(prog, len, pc, r, md) == []
  {
  }

  /** One executed instruction moves the jump machine on. */
  lemma RunNext(prog: seq<SockFilter>, len: nat, pc: u32, stop: bool, p: Point, q: Point, md: Md)
    requires |prog| == MAX_INSTR && |p.r.M| == |q.r.M| == BPF_MEMWORDS && p.next <= pc < len
    requires if pc >= MAX_INSTR then stop && q.code == IERR_SANITY && q.val == p.val
      else Did(Exec(prog[pc], p.r, md), pc, stop, p, q)
    ensures stop ==> Run(prog, len, pc, p.r, md, p.val) == Ran(q.code, q.val)
    ensures !stop ==> q.code == p.code && q.val == p.val
    ensures !stop ==> Run(prog, len, pc, p.r, md, p.val) == Run(prog, len, Max(pc + 1, q.next), q.r, md, p.val)
  {
    hide Exec;
  }

  lemma TraceNext(prog: seq<SockFilter>, len: nat, pc: u32, stop: bool, p: Point, q: Point, md: Md, before: seq<nat>)
    requires |prog| == MAX_INSTR && |p.r.M| == |q.r.M| == BPF_MEMWORDS && p.next <= pc < len
    requires if pc >= MAX_INSTR then stop else Did(Exec(prog[pc], p.r, md), pc, stop, p, q)
    ensures var after := Passed(before, pc);
      before + Trace(prog, len, pc, p.r, md) == if stop then after
        else after + Trace(prog, len, Max(pc + 1, q.next), q.r, md)
  {
    hide Exec, Trace, Did;
    TraceUnfolds(prog, len, pc, stop, p, q, md);
    if !stop {
      var rest := Trace(prog, len, Max(pc + 1, q.next), q.r, md);
      assert before + ([pc] + rest) == before + [pc] + rest;
    }
  }

  lemma TraceUnfolds(prog: seq<SockFilter>, len: nat, pc: u32, stop: bool, p: Point, q: Point, md: Md)
    requires |prog| == MAX_INSTR && |p.r.M| == |q.r.M| == BPF_MEMWORDS && p.next <= pc < len
    requires if pc >= MAX_INSTR then stop else Did(Exec(prog[pc], p.r, md), pc, stop, p, q)
    ensures pc >= MAX_INSTR ==> stop
    ensures Trace(prog, len, pc, p.r, md) ==
      if pc >= MAX_INSTR then [] else if stop then [pc] else [pc] + Trace(prog, len, Max(pc + 1, q.next), q.r, md)
  {
    hide Exec;
    if pc < MAX_INSTR {
      match Exec(prog[pc], p.r, md)
      case Go(r) => assert Max(pc + 1, q.next) == pc + 1;
      case Jump(dist) => assert Max(pc + 1, q.next) == Target(pc, dist);
      case _ =>
    }
  }

  /** The trace after address `pc` was looked at. */
  ghost function Passed(before: seq<nat>, pc: nat): seq<nat> {
    if pc < MAX_INSTR then before + [pc] else before
  }

  // ---- a static check ----

  /** Instruction `f` at address `pc` of a program of length `len` is handled, divides by no register and by no
      zero, and jumps only forward within the program. */
  predicate Safe(f: SockFilter, pc: nat, len: nat) {
    match Decode(f.code)
    case Unknown => false
    case JumpAlways => 1 + pc + f.k < len
    case JumpIf(_, _) => 1 + pc + f.jt < len && 1 + pc + f.jf < len
    case Alu(op, from) => op == Div || op == Mod ==> from == FromK && f.k != 0
    case _ => true
  }

  ghost predicate Checked(prog: seq<SockFilter>, len: nat)
    requires |prog| == MAX_INSTR
  {
    && 1 <= len <= MAX_INSTR
    && (forall pc :: 0 <= pc < len ==> Safe(prog[pc], pc, len))
    && (var last := Decode(prog[len - 1].code); last == RetK || last == RetX || last == RetA)
  }

  /** A safe instruction stops a run only by returning or by a failed load, and never leads out of the program. */
  lemma SafeEffect(f: SockFilter, pc: nat, len: nat, r: Regs, md: Md)
    requires |r.M| == BPF_MEMWORDS && pc < len <= MAX_INSTR && Safe(f, pc, len)
    ensures var e := Exec(f, r, md);
      && (e.Stop? ==> e.code == IERR_LOAD) && (e.Jump? ==> Target(pc, e.dist) == 1 + pc + e.dist < len)
      && (e.Go? ==> Decode(f.code) != RetK && Decode(f.code) != RetX && Decode(f.code) != RetA)
  {
    hide Decode, Load, LoadAt, BitOp, Left, Right, Holds, LengthOf;
  }

  /** A program that passes the check ends, on every packet, with a value or with a failed load. */
  lemma {:induction false} CheckedRuns(prog: seq<SockFilter>, len: nat, pc: nat, r: Regs, md: Md, old_: int)
    requires |prog| == MAX_INSTR && |r.M| == BPF_MEMWORDS && Checked(prog, len) && pc < len
    ensures var ran := Run(prog, len, pc, r, md, old_); ran.code == IERR_OK || ran == Ran(IERR_LOAD, old_)
    decreases len - pc
  {
    hide Exec, Decode;
    assert Safe(prog[pc], pc, len);
    SafeEffect(prog[pc], pc, len, r, md);
    match Exec(prog[pc], r, md)
    case Go(r') => CheckedRuns(prog, len, pc + 1, r', md, old_);
    case Jump(dist) => CheckedRuns(prog, len, Target(pc, dist), r, md, old_);
    case _ =>
  }

  // ---- the program of a group ----

  function ByteAt(body: seq<u8>, i: nat): u8 {
    if i < |body| then body[i] else 0
  }

  /** Instruction `i` of a dissector: code, jt, jf and k, in little-endian order. */
  function InsnAt(body: seq<u8>, i: nat): SockFilter {
    var at := 8 * i;
    SockFilter(ByteAt(body, at) + 256 * ByteAt(body, at + 1), ByteAt(body, at + 2), ByteAt(body, at + 3),
               ByteAt(body, at + 4) + 0x100 * ByteAt(body, at + 5) + 0x1_0000 * ByteAt(body, at + 6) +
               0x100_0000 * ByteAt(body, at + 7))
  }

  function FilterOf(d: Dissector): (f: seq<SockFilter>)
    ensures |f| == MAX_INSTR
  {
    seq(MAX_INSTR, i requires 0 <= i < MAX_INSTR => InsnAt(d.body, i))
  }

  /** With a checked program the packet program never counts a program error. */
  lemma CheckedNeverErrs(s: System, k: Key, p: Packet, now: u64, md: Md)
    requires Formed(s) && k in s.conf && Kind(s.conf[k].dis.typ) == DISSECTOR_CBPF
    requires Checked(FilterOf(s.conf[k].dis), s.conf[k].dis.filterLen)
    requires p.ran == Interpret(FilterOf(s.conf[k].dis), s.conf[k].dis.filterLen, md, 0)
    ensures !PathOf(s, k, p, now).ProgError?
    ensures Receive(s, k, p, now).conf[k].rx.progError == s.conf[k].rx.progError
  {
    hide Formed, Run, Kind, FilterOf, SecondByCookie, CookieSought, ThirdOf, SecondByHash, Decode;
    CheckedRuns(FilterOf(s.conf[k].dis), s.conf[k].dis.filterLen, 0, ZeroRegs(), md, 0);
  }
}
