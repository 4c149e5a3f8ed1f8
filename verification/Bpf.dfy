/**
 A machine for the eBPF programs of the exec-error daemon: registers that are unreadable until
 written, helper calls that clobber R0-R5 (section "Registers and calling convention" of the Linux
 eBPF instruction-set document), symbolic jumps (section 4.3 of RFC 9669), a stack slot, and the
 ring buffer helpers.
 */
module Bpf {
  import opened Decimal

  type Byte = b: int | 0 <= b < 256

  const TwoTo64: int := 0x1_0000_0000_0000_0000

  type Word64 = w: int | 0 <= w < 0x1_0000_0000_0000_0000

  /** Arithmetic and immediates are 64 bits wide; a negative immediate is sign-extended. */
  function Wrap(n: int): Word64 {
    n % TwoTo64
  }

  datatype Order = LittleEndian | BigEndian

  function Uint32(order: Order, b: seq<Byte>): (r: nat)
    requires |b| == 4
  {
    var b0: int, b1: int, b2: int, b3: int := b[0], b[1], b[2], b[3];
    if order.LittleEndian?
    then b0 + 0x100 * b1 + 0x1_0000 * b2 + 0x100_0000 * b3
    else b3 + 0x100 * b2 + 0x1_0000 * b1 + 0x100_0000 * b0
  }

  function Uint64(order: Order, b: seq<Byte>): (r: Word64)
    requires |b| == 8
  {
    var first, second := Uint32(order, b[..4]), Uint32(order, b[4..]);
    if order.LittleEndian? then first + 0x1_0000_0000 * second else second + 0x1_0000_0000 * first
  }

  // ---------- Instructions ----------

  type Reg = r: int | 0 <= r <= 10

  datatype Helper = GetCurrentTask | ProbeReadKernel | RingbufReserve | RingbufSubmit | RingbufDiscard

  datatype Op =
    | LoadDWord(dst: Reg, src: Reg, offset: int)
    | LoadMapPtr(dst: Reg, fd: int)
    | MovReg(dst: Reg, src: Reg)
    | MovImm(dst: Reg, imm: int)
    | AddImm(dst: Reg, imm: int)
    | JumpEqual(dst: Reg, imm: int, target: string)
    | JumpNotEqual(dst: Reg, imm: int, target: string)
    | Jump(target: string)
    | Call(helper: Helper)
    | Return

  datatype Instruction = Instruction(op: Op, symbol: Option<string>)

  function Resolve(p: seq<Instruction>, target: string): (r: Option<nat>)
    ensures r.Some? ==> r.value < |p| && p[r.value].symbol == Some(target)
  {
    if p == [] then None
    else if p[0].symbol == Some(target) then Some(0)
    else
      var rest := Resolve(p[1..], target);
      if rest.None? then None else Some(rest.value + 1)
  }

  // ---------- The machine ----------

  datatype Value =
    | Word(w: Word64)
    | ContextPtr
    | FramePtr(offset: int)
    | RecordPtr(offset: int)
    | MapPtr(fd: int)

  /** What the program does to the ring buffer. */
  datatype Effect = Reserve(fd: int, size: int, succeeded: bool) | Submit(bytes: seq<Byte>) | Discard

  datatype Status = Running | Done(exit: Word64) | Stuck

  datatype Machine = Machine(
    status: Status,
    pc: nat,
    regs: map<int, Value>,
    slot: seq<Byte>,
    record: Option<seq<Byte>>,
    probes: nat,
    trace: seq<Effect>)

  /** Everything outside the program, and all of it arbitrary: byte order, the tracepoint context,
      kernel memory, the current task, whether reserving succeeds and with which leftover bytes, and
      what each probing call returns. */
  datatype Kernel = Kernel(
    order: Order,
    context: nat -> Byte,
    memory: Word64 -> Byte,
    currentTask: Word64,
    reserves: bool,
    leftover: int -> Byte,
    probe: nat -> Word64)
  {
    function Read(address: Word64, size: nat): (r: seq<Byte>)
      ensures |r| == size
    {
      seq<Byte>(size, i requires 0 <= i < size => memory(Wrap(address + i)))
    }

    function ContextBytes(offset: nat, size: nat): (r: seq<Byte>)
      ensures |r| == size
    {
      seq<Byte>(size, i requires 0 <= i < size => context(offset + i))
    }

    function Leftover(size: nat): (r: seq<Byte>)
      ensures |r| == size
    {
      seq<Byte>(size, i requires 0 <= i < size => leftover(i))
    }
  }

  function Zeros(size: nat): (r: seq<Byte>)
    ensures |r| == size
  {
    seq<Byte>(size, i requires 0 <= i < size => 0)
  }

  /** Overwrite a range of a buffer. */
  function Patched(buffer: seq<Byte>, offset: nat, bytes: seq<Byte>): (r: seq<Byte>)
    requires offset + |bytes| <= |buffer|
    ensures |r| == |buffer|
  {
    buffer[..offset] + bytes + buffer[offset + |bytes|..]
  }

  function StuckAt(m: Machine): Machine {
    m.(status := Stuck)
  }

  function Next(m: Machine, regs: map<int, Value>): Machine {
    m.(pc := m.pc + 1, regs := regs)
  }

  function JumpIf(p: seq<Instruction>, m: Machine, taken: bool, target: string): Machine {
    if !taken then Next(m, m.regs)
    else
      var r := Resolve(p, target);
      if r.None? then StuckAt(m) else m.(pc := r.value)
  }

  /** After a call R1-R5 hold nothing the program may read, and R0 only what the call returned. */
  function Clobbered(regs: map<int, Value>): map<int, Value> {
    regs - {0, 1, 2, 3, 4, 5}
  }

  function Probed(k: Kernel, m: Machine): Machine {
    if !(1 in m.regs && 2 in m.regs && 3 in m.regs && m.regs[2].Word? && m.regs[3].Word?) then StuckAt(m)
    else
      var result := k.probe(m.probes);
      var size := m.regs[2].w;
      var bytes := if result == 0 then k.Read(m.regs[3].w, size) else Zeros(size);
      var n := Next(m, Clobbered(m.regs)[0 := Word(result)]).(probes := m.probes + 1);
      match m.regs[1]
      case FramePtr(offset) =>
        if |m.slot| == 8 && -8 <= offset && offset + size <= 0 then n.(slot := Patched(m.slot, offset + 8, bytes)) else StuckAt(m)
      case RecordPtr(offset) =>
        if m.record.Some? && 0 <= offset && offset + size <= |m.record.value|
        then n.(record := Some(Patched(m.record.value, offset, bytes))) else StuckAt(m)
      case _ => StuckAt(m)
  }

  function Called(k: Kernel, m: Machine, helper: Helper): Machine {
    match helper
    case GetCurrentTask => Next(m, Clobbered(m.regs)[0 := Word(k.currentTask)])
    case ProbeReadKernel => Probed(k, m)
    case RingbufReserve =>
      if !(1 in m.regs && 2 in m.regs && 3 in m.regs && m.regs[1].MapPtr? && m.regs[2].Word?
           && m.regs[3] == Word(0) && m.record.None?) then StuckAt(m)
      else if k.reserves then
        Next(m, Clobbered(m.regs)[0 := RecordPtr(0)])
          .(record := Some(k.Leftover(m.regs[2].w)), trace := m.trace + [Reserve(m.regs[1].fd, m.regs[2].w, true)])
      else
        Next(m, Clobbered(m.regs)[0 := Word(0)]).(trace := m.trace + [Reserve(m.regs[1].fd, m.regs[2].w, false)])
    case RingbufSubmit => Released(m, if m.record.Some? then Submit(m.record.value) else Discard)
    case RingbufDiscard => Released(m, Discard)
  }

  /** Submit and discard take the start of a live record and return nothing. */
  function Released(m: Machine, effect: Effect): Machine {
    if !(1 in m.regs && 2 in m.regs && m.regs[1] == RecordPtr(0) && m.regs[2] == Word(0) && m.record.Some?) then StuckAt(m)
    else Next(m, Clobbered(m.regs)).(record := None, trace := m.trace + [effect])
  }

  function Loaded(k: Kernel, m: Machine, dst: Reg, src: Reg, offset: int): Machine {
    if src !in m.regs then StuckAt(m)
    else
      match m.regs[src]
      case ContextPtr =>
        if offset < 0 then StuckAt(m)
        else Next(m, m.regs[dst := Word(Uint64(k.order, k.ContextBytes(offset, 8)))])
      case FramePtr(base) =>
        if base + offset == -8 && |m.slot| == 8 then Next(m, m.regs[dst := Word(Uint64(k.order, m.slot))]) else StuckAt(m)
      case _ => StuckAt(m)
  }

  function Added(v: Value, imm: int): Option<Value> {
    match v
    case Word(w) => Some(Word(Wrap(w + imm)))
    case FramePtr(offset) => Some(FramePtr(offset + imm))
    case RecordPtr(offset) => Some(RecordPtr(offset + imm))
    case _ => None
  }

  /** Comparing the address of a live record with an immediate finds them different. */
  predicate Equals(v: Value, imm: int) {
    v.Word? && v.w == Wrap(imm)
  }

  function Performed(p: seq<Instruction>, k: Kernel, m: Machine, op: Op): Machine {
    match op
    case LoadDWord(dst, src, offset) => Loaded(k, m, dst, src, offset)
    case LoadMapPtr(dst, fd) => Next(m, m.regs[dst := MapPtr(fd)])
    case MovReg(dst, src) => if src in m.regs then Next(m, m.regs[dst := m.regs[src]]) else StuckAt(m)
    case MovImm(dst, imm) => Next(m, m.regs[dst := Word(Wrap(imm))])
    case AddImm(dst, imm) =>
      if dst in m.regs && Added(m.regs[dst], imm).Some? then Next(m, m.regs[dst := Added(m.regs[dst], imm).value])
      else StuckAt(m)
    case JumpEqual(dst, imm, target) =>
      if dst in m.regs then JumpIf(p, m, Equals(m.regs[dst], imm), target) else StuckAt(m)
    case JumpNotEqual(dst, imm, target) =>
      if dst in m.regs then JumpIf(p, m, !Equals(m.regs[dst], imm), target) else StuckAt(m)
    case Jump(target) => JumpIf(p, m, true, target)
    case Call(helper) => Called(k, m, helper)
    case Return => if 0 in m.regs && m.regs[0].Word? then m.(status := Done(m.regs[0].w)) else StuckAt(m)
  }

  function Step(p: seq<Instruction>, k: Kernel, m: Machine): Machine {
    if m.pc < |p| then Performed(p, k, m, p[m.pc].op) else StuckAt(m)
  }

  /** Marks the machines at which a proof looks at one step. */
  predicate Visited(m: Machine) {
    true
  }

  /** `step` is one step of program `p` under kernel `k`. */
  ghost predicate Implements(step: Machine -> Machine, p: seq<Instruction>, k: Kernel) {
    forall m {:trigger Visited(m)} :: step(m) == Step(p, k, m)
  }

  /** At most `fuel` steps; a program that has stopped stays as it is. */
  function Exec(step: Machine -> Machine, m: Machine, fuel: nat): Machine
    decreases fuel, m
  {
    if fuel == 0 || !m.status.Running? then m else Exec(step, step(m), fuel - 1)
  }

  /** A run of program `p` under kernel `k`. */
  function Run(p: seq<Instruction>, k: Kernel, m: Machine, fuel: nat): Machine {
    Exec(x => Step(p, k, x), m, fuel)
  }

  /** On entry only the context and frame addresses are readable. */
  function Start(slot: seq<Byte>): Machine {
    Machine(Running, 0, map[1 := ContextPtr, 10 := FramePtr(0)], slot, None, 0, [])
  }

  lemma {:induction false} ExecAdd(step: Machine -> Machine, m: Machine, a: nat, b: nat)
    ensures Exec(step, m, a + b) == Exec(step, Exec(step, m, a), b)
    decreases a
  {
    if a == 0 {
    } else if !m.status.Running? {
      ExecStopped(step, m, a + b);
    } else {
      ExecAdd(step, step(m), a - 1, b);
    }
  }

  lemma ExecStopped(step: Machine -> Machine, m: Machine, fuel: nat)
    requires !m.status.Running?
    ensures Exec(step, m, fuel) == m
  {
  }
}
