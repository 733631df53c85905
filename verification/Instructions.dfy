/** What each classic BPF instruction computes, opcode by opcode, in numbers. */
module Instructions {
  import opened Words
  import opened Steering
  import opened Bits
  import opened Bytes
  import opened Interpreter
  import opened Allocator
  import opened Routing

  // ---- moves and loads ----

  /** Registers and memory. The memory slot is the constant modulo 16; the length is that of the UDP payload, and both
      length loads go to A. */
  lemma MovesDo(f: SockFilter, r: Regs, md: Md)
    requires |r.M| == 16
    ensures f.code == 0x07 ==> Exec(f, r, md) == Go(Regs(r.A, r.A, r.M))
    ensures f.code == 0x87 ==> Exec(f, r, md) == Go(Regs(r.X, r.X, r.M))
    ensures f.code == 0x02 ==> Exec(f, r, md) == Go(Regs(r.A, r.X, r.M[f.k % 16 := r.A]))
    ensures f.code == 0x03 ==> Exec(f, r, md) == Go(Regs(r.A, r.X, r.M[f.k % 16 := r.X]))
    ensures f.code == 0x00 ==> Exec(f, r, md) == Go(Regs(f.k, r.X, r.M))
    ensures f.code == 0x01 ==> Exec(f, r, md) == Go(Regs(r.A, f.k, r.M))
    ensures f.code == 0x60 ==> Exec(f, r, md) == Go(Regs(r.M[f.k % 16], r.X, r.M))
    ensures f.code == 0x61 ==> Exec(f, r, md) == Go(Regs(r.A, r.M[f.k % 16], r.M))
    ensures (f.code == 0x80 || f.code == 0x81) && 8 <= |md.data| < TWO32 ==>
      Exec(f, r, md) == Go(Regs(|md.data| - 8, r.X, r.M))
  {
    hide Decode;
    MoveTable();
  }

  /** `n` bytes can be read at payload offset `off`. The offset is unsigned and wraps, so the last eight offsets are
      those of the UDP header. */
  predicate Readable(md: Md, off: u32, n: nat) {
    var at := if off + 8 < TWO32 then off + 8 else off + 8 - TWO32;
    at <= 0x7fff_ffff && at + n <= |md.data|
  }

  /** The number that `n` readable bytes write, big end first. */
  function Field(md: Md, off: u32, n: nat): u32
    requires n <= 4 && Readable(md, off, n)
  {
    hide Value;
    var at := if off + 8 < TWO32 then off + 8 else off + 8 - TWO32;
    FitsWord(md.data[at..at + n]);
    Value(md.data[at..at + n])
  }

  lemma LoadIsField(md: Md, off: u32, size: Size)
    ensures var n := if size == Word then 4 else if size == Half then 2 else 1;
      Load(md, off, size) == if Readable(md, off, n) then Some(Field(md, off, n)) else None
  {
    hide Value;
  }

  /** An absolute load reads four, two or one bytes at the constant, an indexed one at X plus the constant. A half-word
      at 0xfffff000 is the protocol number instead. Bytes that are not there stop the program. */
  lemma LoadsDo(f: SockFilter, r: Regs, md: Md)
    requires |r.M| == 16 && f.code in {0x20, 0x28, 0x30, 0x40, 0x48, 0x50}
    ensures var n := if f.code in {0x20, 0x40} then 4 else if f.code in {0x28, 0x48} then 2 else 1;
      var off := if f.code in {0x20, 0x28, 0x30} then f.k else (r.X + f.k) % TWO32;
      Exec(f, r, md) ==
        if f.code == 0x28 && f.k == 0xffff_f000 then Go(Regs(md.protocol, r.X, r.M))
        else if Readable(md, off, n) then Go(Regs(Field(md, off, n), r.X, r.M))
        else Stop(IERR_LOAD)
  {
    hide Decode, Load, Readable, Field;
    LoadTable();
    var off := if f.code in {0x20, 0x28, 0x30} then f.k else (r.X + f.k) % TWO32;
    LoadIsField(md, off, if f.code in {0x20, 0x40} then Word else if f.code in {0x28, 0x48} then Half else Byte);
  }

  /** X becomes four times the low nibble of a byte: the length of an IPv4 header. */
  lemma HeaderLengthDoes(f: SockFilter, r: Regs, md: Md)
    requires |r.M| == 16 && f.code == 0xb1
    ensures Exec(f, r, md) ==
      if !Readable(md, f.k, 1) then Stop(IERR_LOAD) else Go(Regs(r.A, 4 * (Field(md, f.k, 1) % 16), r.M))
  {
    hide Decode, Load, Readable, Field;
    LoadTable();
    LoadIsField(md, f.k, Byte);
  }

  // ---- arithmetic ----

  /** The operand: X when bit 3 of the opcode is set, the constant otherwise. */
  function OperandOf(f: SockFilter, r: Regs): u32 {
    if f.code / 8 % 2 == 1 then r.X else f.k
  }

  /** A takes the value `v`, all else stays. */
  predicate Gives(e: Effect, r: Regs, v: int) {
    0 <= v < TWO32 && e == Go(Regs(v, r.X, r.M))
  }

  /** Sums, differences, products and negation are those of the integers, up to a multiple of 2^32. */
  lemma SumsDo(f: SockFilter, r: Regs, md: Md) returns (v: int, q: int)
    requires |r.M| == 16 && f.code in {0x0c, 0x04, 0x1c, 0x14, 0x2c, 0x24, 0x84}
    ensures Gives(Exec(f, r, md), r, v)
    ensures var b := OperandOf(f, r);
      v + q * TWO32 ==
        if f.code in {0x0c, 0x04} then r.A + b
        else if f.code in {0x1c, 0x14} then r.A - b
        else if f.code == 0x84 then 0 - r.A
        else r.A * b
  {
    hide Decode;
    SumTable();
    NegateCode();
    SourceBit(f.code);
    var b := OperandOf(f, r);
    var x: int := if f.code in {0x0c, 0x04} then r.A + b else if f.code in {0x1c, 0x14} then r.A - b
      else if f.code == 0x84 then 0 - r.A else r.A * b;
    v, q := x % TWO32, x / TWO32;
  }

  lemma SourceBit(code: u16)
    ensures code in {0x0c, 0x1c, 0x2c, 0x3c, 0x9c, 0x5c, 0x4c, 0xac, 0x6c, 0x7c, 0x2d, 0x3d, 0x1d, 0x4d} ==>
      code / 8 % 2 == 1
    ensures code in {0x04, 0x14, 0x24, 0x34, 0x94, 0x54, 0x44, 0xa4, 0x64, 0x74, 0x25, 0x35, 0x15, 0x45} ==>
      code / 8 % 2 == 0
  {
  }

  /** Division gives the quotient and the remainder of the naturals; by zero it stops the program. */
  lemma DivisionsDo(f: SockFilter, r: Regs, md: Md) returns (q: nat, m: nat)
    requires |r.M| == 16 && f.code in {0x3c, 0x34, 0x9c, 0x94}
    ensures var b := OperandOf(f, r);
      if b == 0 then Exec(f, r, md) == Stop(IERR_BADINSTR)
      else r.A == b * q + m && m < b && Gives(Exec(f, r, md), r, if f.code in {0x3c, 0x34} then q else m)
  {
    hide Decode;
    SumTable();
    SourceBit(f.code);
    var b := OperandOf(f, r);
    q, m := 0, 0;
    if b != 0 {
      Shrinks(r.A, b);
      q, m := r.A / b, r.A % b;
    }
  }

  /** Shifts by less than 32 multiply, up to a multiple of 2^32, or divide by a power of two. */
  lemma ShiftsDo(f: SockFilter, r: Regs, md: Md) returns (v: nat, q: nat, m: nat)
    requires |r.M| == 16 && f.code in {0x6c, 0x64, 0x7c, 0x74} && OperandOf(f, r) < 32
    ensures Gives(Exec(f, r, md), r, v)
    ensures f.code in {0x6c, 0x64} ==> r.A * Pow2(OperandOf(f, r)) == v + q * TWO32
    ensures f.code in {0x7c, 0x74} ==> r.A == v * Pow2(OperandOf(f, r)) + m && m < Pow2(OperandOf(f, r))
  {
    hide Decode, Pow2;
    ShiftTable();
    SourceBit(f.code);
    var p := Pow2(OperandOf(f, r));
    if f.code in {0x6c, 0x64} {
      v, q, m := r.A * p % TWO32, r.A * p / TWO32, 0;
    } else {
      Shrinks(r.A, p);
      v, q, m := r.A / p, 0, r.A % p;
    }
  }

  // ---- bits ----

  /** And, or and exclusive or, bit by bit. */
  lemma BitsDo(f: SockFilter, r: Regs, md: Md, i: nat) returns (v: nat)
    requires |r.M| == 16 && f.code in {0x5c, 0x54, 0x4c, 0x44, 0xac, 0xa4} && i < 32
    ensures Gives(Exec(f, r, md), r, v)
    ensures var b := OperandOf(f, r);
      Bit(v, i) <==>
        if f.code in {0x5c, 0x54} then Bit(r.A, i) && Bit(b, i)
        else if f.code in {0x4c, 0x44} then Bit(r.A, i) || Bit(b, i)
        else Bit(r.A, i) != Bit(b, i)
  {
    hide Exec, Bit, Bitwise, OperandOf;
    BitsEffect(f, r, md);
    var g, b := GateOf(f.code), OperandOf(f, r);
    v := BitOp(g, r.A, b);
    BitwiseAt(g, r.A, b, 32, i);
  }

  function GateOf(code: u16): Gate {
    if code in {0x5c, 0x54} then AndGate else if code in {0x4c, 0x44} then OrGate else XorGate
  }

  lemma BitsEffect(f: SockFilter, r: Regs, md: Md)
    requires |r.M| == 16 && f.code in {0x5c, 0x54, 0x4c, 0x44, 0xac, 0xa4}
    ensures Exec(f, r, md) == Go(Regs(BitOp(GateOf(f.code), r.A, OperandOf(f, r)), r.X, r.M))
  {
    hide Decode, BitOp;
    BitTable();
    SourceBit(f.code);
  }

  // ---- jumps ----

  ghost predicate ShareBit(a: nat, b: nat) {
    exists i :: 0 <= i < 32 && Bit(a, i) && Bit(b, i)
  }

  lemma AndIsZero(a: u32, b: u32)
    ensures BitOp(AndGate, a, b) != 0 <==> ShareBit(a, b)
  {
    hide Bit, Bitwise;
    var w := BitOp(AndGate, a, b);
    if w != 0 {
      PowTable();
      var i := SomeBit(w, 32);
      BitwiseAt(AndGate, a, b, 32, i);
    }
    if ShareBit(a, b) {
      var i :| 0 <= i < 32 && Bit(a, i) && Bit(b, i);
      BitwiseAt(AndGate, a, b, 32, i);
      NoBitOfZero(i);
    }
  }

  /** Conditional jumps compare naturals; JSET holds exactly when some bit is set in both operands. The unconditional
      one jumps by its constant. */
  lemma JumpsDo(f: SockFilter, r: Regs, md: Md)
    requires |r.M| == 16 && f.code in {0x2d, 0x25, 0x3d, 0x35, 0x1d, 0x15, 0x4d, 0x45, 0x05}
    ensures var b := OperandOf(f, r);
      f.code != 0x05 ==>
        (Exec(f, r, md) ==
         Jump(if (if f.code in {0x2d, 0x25} then r.A > b
                  else if f.code in {0x3d, 0x35} then r.A >= b
                  else if f.code in {0x1d, 0x15} then r.A == b
                  else ShareBit(r.A, b))
              then f.jt else f.jf))
    ensures f.code == 0x05 ==> Exec(f, r, md) == Jump(f.k)
  {
    hide Decode, BitOp, ShareBit;
    JumpTable();
    SourceBit(f.code);
    AndIsZero(r.A, OperandOf(f, r));
  }

  /** A jump inside the 32-bit range lands just past the instruction plus its distance. */
  lemma JumpLands(pc: nat, dist: nat)
    requires pc + dist + 1 < TWO32
    ensures Target(pc, dist) == pc + 1 + dist
  {
  }

  /** A return gives the constant, X or A, read as a signed 32-bit number. */
  lemma ReturnsDo(f: SockFilter, r: Regs, md: Md)
    requires |r.M| == 16 && f.code in {0x06, 0x0e, 0x16}
    ensures Exec(f, r, md) == Return(if f.code == 0x06 then f.k else if f.code == 0x0e then r.X else r.A)
    ensures forall v: u32 :: -0x8000_0000 <= AsInt(v) < 0x8000_0000 && (AsInt(v) == v || AsInt(v) == v - TWO32)
  {
    hide Decode;
    ReturnTable();
  }

  // ---- a program ----

  /** ldh [off]; ret a. */
  function ReadsCookie(off: u32): (prog: seq<SockFilter>)
    ensures |prog| == MAX_INSTR
  {
    [SockFilter(0x28, 0, 0, off), SockFilter(0x16, 0, 0, 0)] + seq(62, _ => SockFilter(0, 0, 0, 0))
  }

  /** The two-instruction program returns the sixteen bits at its offset, big end first, and fails where there are
      none. */
  lemma ReadsCookieDoes(off: u32, md: Md, old_: int)
    requires off != 0xffff_f000
    ensures Interpret(ReadsCookie(off), 2, md, old_) ==
      if Readable(md, off, 2) then Ran(IERR_OK, Field(md, off, 2)) else Ran(IERR_LOAD, old_)
  {
    hide Exec, Field, Readable, ReadsCookie;
    var prog, r := ReadsCookie(off), ZeroRegs();
    CookieProgram(off);
    LoadsDo(prog[0], r, md);
    if Readable(md, off, 2) {
      var r' := Regs(Field(md, off, 2), r.X, r.M);
      ReturnsDo(prog[1], r', md);
      HalfFits(md, off);
      RunReturns(prog, r', md, old_);
    }
  }

  lemma CookieProgram(off: u32)
    ensures ReadsCookie(off)[0] == SockFilter(0x28, 0, 0, off) && ReadsCookie(off)[1] == SockFilter(0x16, 0, 0, 0)
  {
  }

  lemma RunReturns(prog: seq<SockFilter>, r: Regs, md: Md, old_: int)
    requires |prog| == MAX_INSTR && |r.M| == 16 && Exec(prog[1], r, md) == Return(r.A) && r.A < 0x1_0000
    ensures Run(prog, 2, 1, r, md, old_) == Ran(IERR_OK, r.A)
  {
    hide Exec;
  }

  lemma HalfFits(md: Md, off: u32)
    requires Readable(md, off, 2)
    ensures Field(md, off, 2) < 0x1_0000
  {
    hide Value;
    assert Pow256(1) == 256 * Pow256(0) && Pow256(2) == 256 * Pow256(1);
  }

  // ---- from the program in a dissector to the socket ----

  /** The eight bytes of an instruction as the application passes it: code, jt, jf, k, little end first. */
  function InsnBytes(f: SockFilter): (b: seq<u8>)
    ensures |b| == 8
  {
    [f.code % 0x100, f.code / 0x100, f.jt, f.jf,
     f.k % 0x100, f.k / 0x100 % 0x100, f.k / 0x1_0000 % 0x100, f.k / 0x100_0000]
  }

  function ProgramBytes(prog: seq<SockFilter>): (b: seq<u8>)
    ensures |b| == 8 * |prog|
  {
    if prog == [] then [] else InsnBytes(prog[0]) + ProgramBytes(prog[1..])
  }

  lemma {:induction false} ProgramByte(prog: seq<SockFilter>, i: nat, j: nat)
    requires i < |prog| && j < 8
    ensures ProgramBytes(prog)[8 * i + j] == InsnBytes(prog[i])[j]
  {
    hide InsnBytes;
    if i > 0 {
      ProgramByte(prog[1..], i - 1, j);
    }
  }

  lemma InsnRoundTrip(f: SockFilter)
    ensures var b: seq<nat> := InsnBytes(f);
      && f.code == b[0] + 256 * b[1] && f.jt == b[2] && f.jf == b[3]
      && f.k == b[4] + 0x100 * b[5] + 0x1_0000 * b[6] + 0x100_0000 * b[7]
  {
    var k1 := f.k / 0x100;
    var k2 := k1 / 0x100;
    assert k2 == f.k / 0x1_0000 && k2 / 0x100 == f.k / 0x100_0000;
  }

  /** The interpreter finds every instruction that the application passed. */
  lemma FilterRoundTrip(d: Dissector, prog: seq<SockFilter>, i: nat)
    requires |prog| <= MAX_INSTR && d.body == ProgramBytes(prog) && i < |prog|
    ensures FilterOf(d)[i] == prog[i]
  {
    hide InsnBytes, ProgramBytes;
    forall j | 0 <= j < 8 ensures ByteAt(d.body, 8 * i + j) == InsnBytes(prog[i])[j] {
      ProgramByte(prog, i, j);
    }
    assert ByteAt(d.body, 8 * i) == InsnBytes(prog[i])[0];
    InsnRoundTrip(prog[i]);
  }

  /** A run of length `n` looks at no instruction from `n` on. */
  lemma {:induction false} RunLooksBelow(p: seq<SockFilter>, q: seq<SockFilter>, n: nat, pc: nat, r: Regs, md: Md,
      old_: int)
    requires |p| == |q| == MAX_INSTR && |r.M| == 16 && forall i :: 0 <= i < n && i < MAX_INSTR ==> p[i] == q[i]
    ensures Run(p, n, pc, r, md, old_) == Run(q, n, pc, r, md, old_)
    decreases n - pc
  {
    hide Exec;
    if pc < n && pc < MAX_INSTR {
      match Exec(p[pc], r, md)
      case Go(r') => RunLooksBelow(p, q, n, pc + 1, r', md, old_);
      case Jump(dist) => RunLooksBelow(p, q, n, Target(pc, dist), r, md, old_);
      case _ =>
    }
  }

  /** Cookie routing, from packet bytes to the socket: in a group whose program reads sixteen bits at an offset of the
      payload, a packet that carries there the cookie that getsockopt reports for a live socket, big end first, reaches
      that socket exactly when the slot named by the cookie holds it. */
  lemma CookieInPacketReaches(s: System, c: Cookie, p: Packet, now: u64, off: u32, md: Md)
    requires Formed(s) && c in s.socks && s.socks[c].key in s.conf && c in LiveSet(s) && off != 0xffff_f000
    requires var d := s.conf[s.socks[c].key].dis;
      && Kind(d.typ) == DISSECTOR_CBPF && d.filterLen == 2 && d.body == ProgramBytes(ReadsCookie(off)[..2])
      && p.ran == Interpret(FilterOf(d), d.filterLen, md, 0)
    requires Readable(md, off, 2) && Field(md, off, 2) == ReportedCookie(s, c)
    ensures PathOf(s, s.socks[c].key, p, now) == Existing(c) <==>
      s.slots[s.socks[c].key].cookies[RowOf(s, c)][s.socks[c].idx % 256] == c
  {
    hide Formed, LiveSet, PathOf, ReportedCookie, RowOf, Kind, Field, Readable, FilterOf, ReadsCookie,
      ProgramBytes, Run;
    var d := s.conf[s.socks[c].key].dis;
    var prog := ReadsCookie(off);
    FilterRoundTrip(d, prog[..2], 0);
    FilterRoundTrip(d, prog[..2], 1);
    RunLooksBelow(FilterOf(d), prog, 2, 0, ZeroRegs(), md, 0);
    ReadsCookieDoes(off, md, 0);
    ReachesExactly(s, c, p, now);
  }
}
