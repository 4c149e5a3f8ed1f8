/**
 Running the generated program to its end, over all kernel memories, offsets and helper results,
 block by block from the last one backwards; and the user-space end of the record.
 */
module TracepointRun {
  import opened Decimal
  import opened Bpf
  import opened Tracepoint

  // ---------- What the program is for ----------

  /** The syscall's return value, as the tracepoint context stores it. */
  function ReturnValue(k: Kernel): Word64 {
    Uint64(k.order, k.ContextBytes(16, 8))
  }

  function TgidBytes(k: Kernel, task: Word64, tgid: int): (r: seq<Byte>)
    ensures |r| == 4
  {
    k.Read(Wrap(task + tgid), 4)
  }

  /** The thread group id of a task, read in the machine's own byte order. */
  function TgidOf(k: Kernel, task: Word64, tgid: int): nat {
    Uint32(k.order, TgidBytes(k, task, tgid))
  }

  function RealParent(k: Kernel, parent: int): Word64 {
    Uint64(k.order, k.Read(Wrap(k.currentTask + parent), 8))
  }

  /** All three kernel reads succeed and the parent address is not null. */
  predicate Readable(k: Kernel, parent: int) {
    k.probe(0) == 0 && k.probe(1) == 0 && RealParent(k, parent) != 0 && k.probe(2) == 0
  }

  /** What the ring buffer sees of one execution. */
  function Expected(k: Kernel, fd: int, tgid: int, parent: int): seq<Effect> {
    if ReturnValue(k) != Wrap(-8) then []
    else if !k.reserves then [Reserve(fd, PayloadSize, false)]
    else if Readable(k, parent) then
      [Reserve(fd, PayloadSize, true),
       Submit(TgidBytes(k, RealParent(k, parent), tgid) + TgidBytes(k, k.currentTask, tgid))]
    else [Reserve(fd, PayloadSize, true), Discard]
  }

  // ---------- Executing one block ----------

  /** Execute the instruction `op` at the program counter. */
  lemma ExecOp(step: Machine -> Machine, p: seq<Instruction>, k: Kernel, m: Machine, op: Op, n: Machine, fuel: nat)
    requires Implements(step, p, k) && fuel > 0
    requires m.status.Running? && m.pc < |p| && p[m.pc].op == op
    requires n == Performed(p, k, m, op)
    ensures Exec(step, m, fuel) == Exec(step, n, fuel - 1)
  {
    assert Visited(m);
  }

  /** The program stops with exit value 0 and nothing reserved, having added `effects`. */
  predicate Ends(step: Machine -> Machine, m: Machine, fuel: nat, effects: seq<Effect>) {
    var f := Exec(step, m, fuel);
    f.status == Done(0) && f.record == None && f.trace == m.trace + effects
  }

  /** Enough fuel is enough. */
  lemma EndsWithMore(step: Machine -> Machine, m: Machine, fuel: nat, more: nat, effects: seq<Effect>)
    requires Ends(step, m, fuel, effects) && more >= fuel
    ensures Ends(step, m, more, effects)
  {
    ExecAdd(step, m, fuel, more - fuel);
    ExecStopped(step, Exec(step, m, fuel), more - fuel);
  }

  /** Prepend a block to the rest of an execution. */
  lemma EndsAfter(step: Machine -> Machine, m: Machine, n: nat, fuel: nat, effects: seq<Effect>)
    requires Exec(step, m, n).trace == m.trace
    requires Ends(step, Exec(step, m, n), fuel, effects)
    ensures Ends(step, m, n + fuel, effects)
  {
    ExecAdd(step, m, n, fuel);
  }

  lemma FromExit(step: Machine -> Machine, p: seq<Instruction>, k: Kernel, m: Machine)
    requires Implements(step, p, k)
    requires CodeAt(p, 40, ExitBlock()) && |p| == 42
    requires m.status.Running? && m.pc == 40 && m.record == None
    ensures Ends(step, m, 2, [])
  {
    assert p[40 + 0] == ExitBlock()[0] && p[40 + 1] == ExitBlock()[1];
    var m1 := m.(pc := 41, regs := m.regs[0 := Word(0)]);
    var m2 := m1.(status := Done(0));
    ExecOp(step, p, k, m, MovImm(0, 0), m1, 2);
    ExecOp(step, p, k, m1, Return, m2, 1);
    assert m.trace + [] == m.trace;
  }

  /** The three instructions that give the record back, by submitting or discarding it. */
  lemma ReleaseCall(step: Machine -> Machine, p: seq<Instruction>, k: Kernel, m: Machine, helper: Helper, effect: Effect, fuel: nat)
    requires Implements(step, p, k) && fuel >= 3 && m.pc + 3 <= |p|
    requires p[m.pc].op == MovReg(1, 7) && p[m.pc + 1].op == MovImm(2, 0) && p[m.pc + 2].op == Call(helper)
    requires m.status.Running? && m.record.Some? && 7 in m.regs && m.regs[7] == RecordPtr(0)
    requires (helper, effect) in {(RingbufDiscard, Discard), (RingbufSubmit, Submit(m.record.value))}
    ensures Exec(step, m, fuel) ==
            Exec(step, m.(pc := m.pc + 3, regs := Clobbered(m.regs), record := None, trace := m.trace + [effect]), fuel - 3)
  {
    var m1 := m.(pc := m.pc + 1, regs := m.regs[1 := RecordPtr(0)]);
    var m2 := m1.(pc := m.pc + 2, regs := m1.regs[2 := Word(0)]);
    assert Clobbered(m2.regs) == Clobbered(m.regs);
    var m3 := m.(pc := m.pc + 3, regs := Clobbered(m.regs), record := None, trace := m.trace + [effect]);
    ExecOp(step, p, k, m, MovReg(1, 7), m1, fuel);
    ExecOp(step, p, k, m1, MovImm(2, 0), m2, fuel - 1);
    ExecOp(step, p, k, m2, Call(helper), m3, fuel - 2);
  }

  lemma FromCleanup(step: Machine -> Machine, p: seq<Instruction>, k: Kernel, m: Machine)
    requires Implements(step, p, k)
    requires CodeAt(p, 37, RollbackEvent()) && CodeAt(p, 40, ExitBlock()) && |p| == 42
    requires m.status.Running? && m.pc == 37 && m.record.Some?
    requires 7 in m.regs && m.regs[7] == RecordPtr(0)
    ensures Ends(step, m, 5, [Discard])
  {
    var b := RollbackEvent();
    assert p[37 + 0] == b[0] && p[37 + 1] == b[1] && p[37 + 2] == b[2];
    ReleaseCall(step, p, k, m, RingbufDiscard, Discard, 5);
    FromExit(step, p, k, m.(pc := 40, regs := Clobbered(m.regs), record := None, trace := m.trace + [Discard]));
    assert m.trace + [Discard] + [] == m.trace + [Discard];
  }

  lemma FromJump(step: Machine -> Machine, p: seq<Instruction>, k: Kernel, m: Machine)
    requires Implements(step, p, k)
    requires CodeAt(p, 40, ExitBlock()) && |p| == 42 && Resolve(p, ExitLabel) == Some(40)
    requires m.status.Running? && m.pc < |p| && m.record == None && p[m.pc].op == Jump(ExitLabel)
    ensures Ends(step, m, 3, [])
  {
    ExecOp(step, p, k, m, Jump(ExitLabel), m.(pc := 40), 3);
    FromExit(step, p, k, m.(pc := 40));
  }

  lemma FromSubmit(step: Machine -> Machine, p: seq<Instruction>, k: Kernel, m: Machine)
    requires Implements(step, p, k)
    requires CodeAt(p, 33, SubmitEvent()) && CodeAt(p, 40, ExitBlock()) && |p| == 42
    requires Resolve(p, ExitLabel) == Some(40)
    requires m.status.Running? && m.pc == 33 && m.record.Some?
    requires 7 in m.regs && m.regs[7] == RecordPtr(0)
    ensures Ends(step, m, 6, [Submit(m.record.value)])
  {
    var b := SubmitEvent();
    assert p[33 + 0] == b[0] && p[33 + 1] == b[1] && p[33 + 2] == b[2] && p[33 + 3] == b[3];
    var effect := Submit(m.record.value);
    ReleaseCall(step, p, k, m, RingbufSubmit, effect, 6);
    var m3 := m.(pc := 36, regs := Clobbered(m.regs), record := None, trace := m.trace + [effect]);
    FromJump(step, p, k, m3);
    assert m3.trace + [] == m3.trace;
  }

  /** The five instructions that both probing blocks begin with, and the argument registers they set. */
  function ProbeArguments(base: Reg, delta: int, size: int, src: Reg, offset: int): seq<Instruction> {
    [Plain(MovReg(1, base)),
     Plain(AddImm(1, delta)),
     Plain(MovImm(2, size)),
     Plain(MovReg(3, src)),
     Plain(AddImm(3, offset))]
  }

  function ArgumentsSet(regs: map<int, Value>, dst: Value, size: Word64, address: Word64): map<int, Value> {
    regs[1 := dst][2 := Word(size)][3 := Word(address)]
  }

  lemma ArgumentsBlock(step: Machine -> Machine, p: seq<Instruction>, k: Kernel, m: Machine, at: nat,
                       base: Reg, delta: int, size: Word64, src: Reg, task: Word64, offset: int, dst: Value)
    requires Implements(step, p, k)
    requires CodeAt(p, at, ProbeArguments(base, delta, size, src, offset))
    requires m.status.Running? && m.pc == at
    requires base >= 6 && base in m.regs && Added(m.regs[base], delta) == Some(dst)
    requires src >= 6 && src in m.regs && m.regs[src] == Word(task)
    ensures Exec(step, m, 5) ==
            m.(pc := at + 5, regs := ArgumentsSet(m.regs, dst, size, Wrap(task + offset)))
  {
    var b := ProbeArguments(base, delta, size, src, offset);
    assert p[at + 2] == b[2];
    SplitCode(p, at, b, [b[0], b[1]], [b[2]]);
    SplitCode(p, at, b, [b[0], b[1], b[2]], [b[3], b[4]]);
    var m2 := m.(pc := at + 2, regs := m.regs[1 := dst]);
    var m3 := m.(pc := at + 3, regs := m.regs[1 := dst][2 := Word(size)]);
    MoveAdd(step, p, k, m, at, 1, base, delta, dst);
    ExecOp(step, p, k, m2, MovImm(2, size), m3, 1);
    MoveAdd(step, p, k, m3, at + 3, 3, src, offset, Word(Wrap(task + offset)));
    ExecAdd(step, m, 2, 1);
    ExecAdd(step, m, 3, 2);
  }

  /** Copy a register and add an offset. */
  lemma MoveAdd(step: Machine -> Machine, p: seq<Instruction>, k: Kernel, m: Machine, at: nat, to: Reg, from: Reg, offset: int, sum: Value)
    requires Implements(step, p, k)
    requires CodeAt(p, at, [Plain(MovReg(to, from)), Plain(AddImm(to, offset))])
    requires m.status.Running? && m.pc == at && from in m.regs && Added(m.regs[from], offset) == Some(sum)
    ensures Exec(step, m, 2) == m.(pc := at + 2, regs := m.regs[to := sum])
  {
    var b := [Plain(MovReg(to, from)), Plain(AddImm(to, offset))];
    assert p[at + 0] == b[0] && p[at + 1] == b[1];
    var m1 := m.(pc := at + 1, regs := m.regs[to := m.regs[from]]);
    var m2 := m.(pc := at + 2, regs := m.regs[to := sum]);
    assert m1.regs[to := sum] == m2.regs;
    ExecOp(step, p, k, m, MovReg(to, from), m1, 2);
    ExecOp(step, p, k, m1, AddImm(to, offset), m2, 1);
  }

  lemma ClobberedArguments(regs: map<int, Value>, dst: Value, size: Word64, address: Word64)
    ensures Clobbered(ArgumentsSet(regs, dst, size, address)) == Clobbered(regs)
  {
  }

  /** The probing call and the jump to the cleanup when it failed. */
  lemma CallBlock(step: Machine -> Machine, p: seq<Instruction>, k: Kernel, m: Machine, at: nat, n: Machine)
    requires Implements(step, p, k)
    requires CodeAt(p, at, [Plain(Call(ProbeReadKernel)), Plain(JumpNotEqual(0, 0, CleanupLabel))])
    requires Resolve(p, CleanupLabel) == Some(37)
    requires m.status.Running? && m.pc == at
    requires n == Probed(k, m) && n.status.Running? && n.pc == at + 1
    requires 0 in n.regs && n.regs[0] == Word(k.probe(m.probes))
    ensures Exec(step, m, 2) == n.(pc := if k.probe(m.probes) == 0 then at + 2 else 37)
  {
    var b := [Plain(Call(ProbeReadKernel)), Plain(JumpNotEqual(0, 0, CleanupLabel))];
    assert p[at + 0] == b[0] && p[at + 1] == b[1];
    ExecOp(step, p, k, m, Call(ProbeReadKernel), n, 2);
    ExecOp(step, p, k, n, JumpNotEqual(0, 0, CleanupLabel), n.(pc := if k.probe(m.probes) == 0 then at + 2 else 37), 1);
  }

  lemma SplitCode(p: seq<Instruction>, at: nat, block: seq<Instruction>, first: seq<Instruction>, second: seq<Instruction>)
    requires CodeAt(p, at, block) && first + second <= block
    ensures CodeAt(p, at, first) && CodeAt(p, at + |first|, second)
  {
    forall i | 0 <= i < |first| ensures p[at + i] == first[i] {
      assert (first + second)[i] == block[i];
    }
    forall i | 0 <= i < |second| ensures p[at + |first| + i] == second[i] {
      assert (first + second)[|first| + i] == block[|first| + i];
      assert p[at + (|first| + i)] == block[|first| + i];
    }
  }

  /** `loadIntoRingBufEvent`: seven instructions, one probing call. */
  lemma LoadBlock(step: Machine -> Machine, p: seq<Instruction>, k: Kernel, m: Machine, at: nat, src: Reg, task: Word64, srcOffset: int, dstOffset: nat)
    requires Implements(step, p, k)
    requires CodeAt(p, at, LoadIntoRingBufEvent(src, srcOffset, 4, dstOffset))
    requires Resolve(p, CleanupLabel) == Some(37)
    requires m.status.Running? && m.pc == at
    requires src >= 6 && src in m.regs && m.regs[src] == Word(task)
    requires 7 in m.regs && m.regs[7] == RecordPtr(0)
    requires m.record.Some? && |m.record.value| == 8 && dstOffset <= 4
    ensures var result := k.probe(m.probes);
            var bytes := if result == 0 then TgidBytes(k, task, srcOffset) else Zeros(4);
            Exec(step, m, 7) ==
              m.(pc := if result == 0 then at + 7 else 37,
                 regs := Clobbered(m.regs)[0 := Word(result)],
                 record := Some(Patched(m.record.value, dstOffset, bytes)),
                 probes := m.probes + 1)
  {
    var call := [Plain(Call(ProbeReadKernel)), Plain(JumpNotEqual(0, 0, CleanupLabel))];
    var arguments := ProbeArguments(7, dstOffset, 4, src, srcOffset);
    assert arguments + call == LoadIntoRingBufEvent(src, srcOffset, 4, dstOffset);
    SplitCode(p, at, LoadIntoRingBufEvent(src, srcOffset, 4, dstOffset), arguments, call);
    ArgumentsBlock(step, p, k, m, at, 7, dstOffset, 4, src, task, srcOffset, RecordPtr(dstOffset));
    var m5 := Exec(step, m, 5);
    ClobberedArguments(m.regs, RecordPtr(dstOffset), 4, Wrap(task + srcOffset));
    CallBlock(step, p, k, m5, at + 5, Probed(k, m5));
    ExecAdd(step, m, 5, 2);
  }

  /** The first seven instructions of `loadRealParent` fill the stack slot. */
  lemma ProbeParent(step: Machine -> Machine, p: seq<Instruction>, k: Kernel, m: Machine, parent: int)
    requires Implements(step, p, k)
    requires CodeAt(p, 17, LoadRealParent(parent))
    requires Resolve(p, CleanupLabel) == Some(37)
    requires m.status.Running? && m.pc == 17 && |m.slot| == 8
    requires 6 in m.regs && m.regs[6] == Word(k.currentTask)
    requires 10 in m.regs && m.regs[10] == FramePtr(0)
    ensures var result := k.probe(m.probes);
            Exec(step, m, 7) ==
              m.(pc := if result == 0 then 24 else 37,
                 regs := Clobbered(m.regs)[0 := Word(result)],
                 slot := if result == 0 then k.Read(Wrap(k.currentTask + parent), 8) else Zeros(8),
                 probes := m.probes + 1)
  {
    var block := LoadRealParent(parent);
    var call := [Plain(Call(ProbeReadKernel)), Plain(JumpNotEqual(0, 0, CleanupLabel))];
    var arguments := ProbeArguments(10, -8, 8, 6, parent);
    assert arguments + call == block[..7];
    SplitCode(p, 17, block, arguments, call);
    ArgumentsBlock(step, p, k, m, 17, 10, -8, 8, 6, k.currentTask, parent, FramePtr(-8));
    var m5 := Exec(step, m, 5);
    ClobberedArguments(m.regs, FramePtr(-8), 8, Wrap(k.currentTask + parent));
    ProbedSlot(k, m5, Wrap(k.currentTask + parent));
    CallBlock(step, p, k, m5, 22, Probed(k, m5));
    ExecAdd(step, m, 5, 2);
  }

  lemma ProbedSlot(k: Kernel, m: Machine, address: Word64)
    requires |m.slot| == 8
    requires 1 in m.regs && 2 in m.regs && 3 in m.regs
    requires m.regs[1] == FramePtr(-8) && m.regs[2] == Word(8) && m.regs[3] == Word(address)
    ensures Probed(k, m) ==
            m.(pc := m.pc + 1,
               regs := Clobbered(m.regs)[0 := Word(k.probe(m.probes))],
               slot := if k.probe(m.probes) == 0 then k.Read(address, 8) else Zeros(8),
               probes := m.probes + 1)
  {
    PatchedWhole(m.slot, if k.probe(m.probes) == 0 then k.Read(address, 8) else Zeros(8));
  }

  lemma PatchedWhole(buffer: seq<Byte>, bytes: seq<Byte>)
    requires |bytes| == |buffer|
    ensures Patched(buffer, 0, bytes) == bytes
  {
  }

  lemma LoadParentTail(step: Machine -> Machine, p: seq<Instruction>, k: Kernel, m: Machine, parent: int)
    requires Implements(step, p, k)
    requires CodeAt(p, 17, LoadRealParent(parent))
    requires Resolve(p, CleanupLabel) == Some(37)
    requires m.status.Running? && m.pc == 24 && |m.slot| == 8
    requires 10 in m.regs && m.regs[10] == FramePtr(0)
    ensures var w := Uint64(k.order, m.slot);
            Exec(step, m, 2) == m.(pc := if w != 0 then 26 else 37, regs := m.regs[8 := Word(w)])
  {
    assert p[17 + 7] == LoadRealParent(parent)[7] && p[17 + 8] == LoadRealParent(parent)[8];
    var w := Uint64(k.order, m.slot);
    var m1 := m.(pc := 25, regs := m.regs[8 := Word(w)]);
    ExecOp(step, p, k, m, LoadDWord(8, 10, -8), m1, 2);
    ExecOp(step, p, k, m1, JumpEqual(8, 0, CleanupLabel), m1.(pc := if w != 0 then 26 else 37), 1);
  }

  // ---------- From each block to the end ----------

  /** What the registers and the record look like once space is reserved. */
  predicate Holding(k: Kernel, m: Machine) {
    && m.status.Running?
    && |m.slot| == 8
    && m.record.Some? && |m.record.value| == 8
    && 6 in m.regs && m.regs[6] == Word(k.currentTask)
    && 7 in m.regs && m.regs[7] == RecordPtr(0)
    && 10 in m.regs && m.regs[10] == FramePtr(0)
  }

  predicate Linked(p: seq<Instruction>, fd: int, tgid: int, parent: int) {
    Laid(p, fd, tgid, parent) && Resolve(p, CleanupLabel) == Some(37) && Resolve(p, ExitLabel) == Some(40)
  }

  lemma FromParentTgid(step: Machine -> Machine, p: seq<Instruction>, k: Kernel, m: Machine, fd: int, tgid: int, parent: int, task: Word64)
    requires Implements(step, p, k)
    requires Linked(p, fd, tgid, parent) && Holding(k, m) && m.pc == 26
    requires 8 in m.regs && m.regs[8] == Word(task)
    ensures Ends(step, m, 13,
                 if k.probe(m.probes) == 0 then [Submit(TgidBytes(k, task, tgid) + m.record.value[4..])] else [Discard])
  {
    LoadBlock(step, p, k, m, 26, 8, task, tgid, 0);
    var f := Exec(step, m, 7);
    if k.probe(m.probes) == 0 {
      assert f.record.value == TgidBytes(k, task, tgid) + m.record.value[4..];
      FromSubmit(step, p, k, f);
      EndsAfter(step, m, 7, 6, [Submit(f.record.value)]);
    } else {
      FromCleanup(step, p, k, f);
      EndsWithMore(step, f, 5, 6, [Discard]);
      EndsAfter(step, m, 7, 6, [Discard]);
    }
  }

  /** A failed block goes to the cleanup. */
  lemma FailedBlock(step: Machine -> Machine, p: seq<Instruction>, k: Kernel, m: Machine, fd: int, tgid: int, parent: int, n: nat, fuel: nat)
    requires Implements(step, p, k)
    requires Linked(p, fd, tgid, parent) && fuel >= 5
    requires var f := Exec(step, m, n);
             && f.status.Running? && f.pc == 37 && f.record.Some? && f.trace == m.trace
             && 7 in f.regs && f.regs[7] == RecordPtr(0)
    ensures Ends(step, m, n + fuel, [Discard])
  {
    var f := Exec(step, m, n);
    FromCleanup(step, p, k, f);
    EndsWithMore(step, f, 5, fuel, [Discard]);
    EndsAfter(step, m, n, fuel, [Discard]);
  }

  lemma RegsAfterProbe(k: Kernel, regs: map<int, Value>, result: Word64)
    requires 6 in regs && 7 in regs && 10 in regs
    ensures var after := Clobbered(regs)[0 := Word(result)];
            && 6 in after && after[6] == regs[6]
            && 7 in after && after[7] == regs[7]
            && 10 in after && after[10] == regs[10]
  {
  }

  lemma ExecThen(step: Machine -> Machine, m: Machine, a: nat, mid: Machine, b: nat)
    requires Exec(step, m, a) == mid
    ensures Exec(step, m, a + b) == Exec(step, mid, b)
  {
    ExecAdd(step, m, a, b);
  }

  /** The machine when the parent's address is in the stack slot. */
  function WithParentSlot(k: Kernel, m: Machine, parent: int): Machine {
    m.(pc := 24,
       regs := Clobbered(m.regs)[0 := Word(0)],
       slot := k.Read(Wrap(k.currentTask + parent), 8),
       probes := m.probes + 1)
  }

  /** Nine instructions on, the parent is in R8. */
  lemma ParentLoaded(step: Machine -> Machine, p: seq<Instruction>, k: Kernel, m: Machine, parent: int)
    requires Implements(step, p, k)
    requires CodeAt(p, 17, LoadRealParent(parent))
    requires Resolve(p, CleanupLabel) == Some(37)
    requires m.status.Running? && m.pc == 17 && |m.slot| == 8
    requires 6 in m.regs && m.regs[6] == Word(k.currentTask)
    requires 10 in m.regs && m.regs[10] == FramePtr(0)
    requires k.probe(m.probes) == 0
    ensures Exec(step, m, 9) ==
            m.(pc := if RealParent(k, parent) != 0 then 26 else 37,
               regs := Clobbered(m.regs)[0 := Word(0)][8 := Word(RealParent(k, parent))],
               slot := k.Read(Wrap(k.currentTask + parent), 8),
               probes := m.probes + 1)
  {
    ProbeParent(step, p, k, m, parent);
    var f := WithParentSlot(k, m, parent);
    LoadParentTail(step, p, k, f, parent);
    ExecThen(step, m, 7, f, 2);
  }

  lemma ParentFound(step: Machine -> Machine, p: seq<Instruction>, k: Kernel, m: Machine, parent: int)
    requires Implements(step, p, k)
    requires CodeAt(p, 17, LoadRealParent(parent))
    requires Resolve(p, CleanupLabel) == Some(37)
    requires Holding(k, m) && m.pc == 17 && k.probe(m.probes) == 0
    ensures var g := Exec(step, m, 9);
            && Holding(k, g) && g.record == m.record && g.trace == m.trace && g.probes == m.probes + 1
            && g.pc == (if RealParent(k, parent) != 0 then 26 else 37)
            && 8 in g.regs && g.regs[8] == Word(RealParent(k, parent))
  {
    ParentLoaded(step, p, k, m, parent);
    RegsAfterProbe(k, m.regs, 0);
  }

  lemma FromRealParent(step: Machine -> Machine, p: seq<Instruction>, k: Kernel, m: Machine, fd: int, tgid: int, parent: int)
    requires Implements(step, p, k)
    requires Linked(p, fd, tgid, parent) && Holding(k, m) && m.pc == 17
    ensures Ends(step, m, 22,
                 if k.probe(m.probes) == 0 && RealParent(k, parent) != 0 && k.probe(m.probes + 1) == 0
                 then [Submit(TgidBytes(k, RealParent(k, parent), tgid) + m.record.value[4..])] else [Discard])
  {
    if k.probe(m.probes) != 0 {
      ProbeParent(step, p, k, m, parent);
      RegsAfterProbe(k, m.regs, k.probe(m.probes));
      FailedBlock(step, p, k, m, fd, tgid, parent, 7, 15);
    } else {
      ParentFound(step, p, k, m, parent);
      if RealParent(k, parent) == 0 {
        FailedBlock(step, p, k, m, fd, tgid, parent, 9, 13);
      } else {
        FromParentTgid(step, p, k, Exec(step, m, 9), fd, tgid, parent, RealParent(k, parent));
        EndsAfter(step, m, 9, 13,
                  if k.probe(m.probes + 1) == 0
                  then [Submit(TgidBytes(k, RealParent(k, parent), tgid) + m.record.value[4..])] else [Discard]);
      }
    }
  }

  /** The effects after a successful reservation, when `probes` calls were made before. */
  function AfterReserve(k: Kernel, tgid: int, parent: int): seq<Effect> {
    if Readable(k, parent)
    then [Submit(TgidBytes(k, RealParent(k, parent), tgid) + TgidBytes(k, k.currentTask, tgid))]
    else [Discard]
  }

  lemma FromCurrentTgid(step: Machine -> Machine, p: seq<Instruction>, k: Kernel, m: Machine, fd: int, tgid: int, parent: int)
    requires Implements(step, p, k)
    requires Linked(p, fd, tgid, parent) && Holding(k, m) && m.pc == 10 && m.probes == 0
    ensures Ends(step, m, 29, AfterReserve(k, tgid, parent))
  {
    LoadBlock(step, p, k, m, 10, 6, k.currentTask, tgid, 4);
    RegsAfterProbe(k, m.regs, k.probe(0));
    if k.probe(0) == 0 {
      var f := Exec(step, m, 7);
      PatchedTail(m.record.value, TgidBytes(k, k.currentTask, tgid));
      FromRealParent(step, p, k, f, fd, tgid, parent);
      EndsAfter(step, m, 7, 22, AfterReserve(k, tgid, parent));
    } else {
      FailedBlock(step, p, k, m, fd, tgid, parent, 7, 22);
    }
  }

  lemma PatchedTail(buffer: seq<Byte>, bytes: seq<Byte>)
    requires |buffer| == 8 && |bytes| == 4
    ensures Patched(buffer, 4, bytes)[4..] == bytes
  {
  }

  /** Reserving space: six instructions, or five when it fails. */
  lemma FromReserve(step: Machine -> Machine, p: seq<Instruction>, k: Kernel, m: Machine, fd: int, tgid: int, parent: int)
    requires Implements(step, p, k)
    requires Linked(p, fd, tgid, parent)
    requires m.status.Running? && m.pc == 4 && |m.slot| == 8 && m.record == None && m.probes == 0
    requires 6 in m.regs && m.regs[6] == Word(k.currentTask) && 10 in m.regs && m.regs[10] == FramePtr(0)
    ensures Ends(step, m, 35,
                 if k.reserves then [Reserve(fd, PayloadSize, true)] + AfterReserve(k, tgid, parent)
                 else [Reserve(fd, PayloadSize, false)])
  {
    ReserveCall(step, p, k, m, fd);
    var f := Exec(step, m, 4);
    assert p[4 + 4] == RingBufReserve(fd)[4] && p[4 + 5] == RingBufReserve(fd)[5];
    var g := f.(pc := if k.reserves then 9 else 40);
    ExecOp(step, p, k, f, JumpEqual(0, 0, ExitLabel), g, 31);
    if k.reserves {
      var h := g.(pc := 10, regs := g.regs[7 := RecordPtr(0)]);
      ExecOp(step, p, k, g, MovReg(7, 0), h, 30);
      FromCurrentTgid(step, p, k, h, fd, tgid, parent);
    } else {
      FromExit(step, p, k, g);
      EndsWithMore(step, g, 2, 30, []);
    }
    ExecAdd(step, m, 4, 31);
  }

  lemma ReserveResult(k: Kernel, m: Machine, n: Machine, fd: int)
    requires m.record == None
    requires n == m.(pc := 7, regs := m.regs[1 := MapPtr(fd)][2 := Word(8)][3 := Word(0)])
    ensures Called(k, n, RingbufReserve) ==
            m.(pc := 8,
               regs := Clobbered(m.regs)[0 := if k.reserves then RecordPtr(0) else Word(0)],
               record := if k.reserves then Some(k.Leftover(8)) else None,
               trace := m.trace + [Reserve(fd, PayloadSize, k.reserves)])
  {
    assert Clobbered(n.regs) == Clobbered(m.regs);
  }

  lemma ReserveCall(step: Machine -> Machine, p: seq<Instruction>, k: Kernel, m: Machine, fd: int)
    requires Implements(step, p, k)
    requires CodeAt(p, 4, RingBufReserve(fd))
    requires m.status.Running? && m.pc == 4 && m.record == None
    ensures Exec(step, m, 4) ==
            m.(pc := 8,
               regs := Clobbered(m.regs)[0 := if k.reserves then RecordPtr(0) else Word(0)],
               record := if k.reserves then Some(k.Leftover(8)) else None,
               trace := m.trace + [Reserve(fd, PayloadSize, k.reserves)])
  {
    var b := RingBufReserve(fd);
    assert p[4 + 0] == b[0] && p[4 + 1] == b[1] && p[4 + 2] == b[2] && p[4 + 3] == b[3];
    var m1 := m.(pc := 5, regs := m.regs[1 := MapPtr(fd)]);
    var m2 := m.(pc := 6, regs := m.regs[1 := MapPtr(fd)][2 := Word(8)]);
    var m3 := m.(pc := 7, regs := m.regs[1 := MapPtr(fd)][2 := Word(8)][3 := Word(0)]);
    ExecOp(step, p, k, m, LoadMapPtr(1, fd), m1, 4);
    ExecOp(step, p, k, m1, MovImm(2, PayloadSize), m2, 3);
    ExecOp(step, p, k, m2, MovImm(3, 0), m3, 2);
    ReserveResult(k, m, m3, fd);
    ExecOp(step, p, k, m3, Call(RingbufReserve), Called(k, m3, RingbufReserve), 1);
  }

  lemma FromCurrentTask(step: Machine -> Machine, p: seq<Instruction>, k: Kernel, m: Machine, fd: int, tgid: int, parent: int)
    requires Implements(step, p, k)
    requires Linked(p, fd, tgid, parent)
    requires m.status.Running? && m.pc == 2 && |m.slot| == 8 && m.record == None && m.probes == 0
    requires 10 in m.regs && m.regs[10] == FramePtr(0)
    ensures Ends(step, m, 37,
                 if k.reserves then [Reserve(fd, PayloadSize, true)] + AfterReserve(k, tgid, parent)
                 else [Reserve(fd, PayloadSize, false)])
  {
    assert p[2 + 0] == GetCurrentTaskBlock()[0] && p[2 + 1] == GetCurrentTaskBlock()[1];
    var m1 := m.(pc := 3, regs := Clobbered(m.regs)[0 := Word(k.currentTask)]);
    var m2 := m1.(pc := 4, regs := m1.regs[6 := Word(k.currentTask)]);
    ExecOp(step, p, k, m, Call(GetCurrentTask), m1, 37);
    ExecOp(step, p, k, m1, MovReg(6, 0), m2, 36);
    FromReserve(step, p, k, m2, fd, tgid, parent);
  }

  lemma TestResult(step: Machine -> Machine, p: seq<Instruction>, k: Kernel, m: Machine, w: Word64)
    requires Implements(step, p, k) && Resolve(p, ExitLabel) == Some(40)
    requires m.status.Running? && m.pc == 1 < |p| && p[1].op == JumpNotEqual(0, -8, ExitLabel)
    requires 0 in m.regs && m.regs[0] == Word(w)
    ensures Exec(step, m, 38) == Exec(step, m.(pc := if w != Wrap(-8) then 40 else 2), 37)
  {
    ExecOp(step, p, k, m, JumpNotEqual(0, -8, ExitLabel), m.(pc := if w != Wrap(-8) then 40 else 2), 38);
  }

  /** The syscall's result decides whether anything happens at all. */
  lemma EntryBlock(step: Machine -> Machine, p: seq<Instruction>, k: Kernel, m: Machine)
    requires Implements(step, p, k) && CodeAt(p, 0, JExitIfNoENOEXEC()) && Resolve(p, ExitLabel) == Some(40)
    requires m.status.Running? && m.pc == 0 && 1 in m.regs && m.regs[1] == ContextPtr
    ensures Exec(step, m, 39) ==
            Exec(step,
                 m.(pc := if ReturnValue(k) != Wrap(-8) then 40 else 2, regs := m.regs[0 := Word(ReturnValue(k))]),
                 37)
  {
    assert p[0 + 0] == JExitIfNoENOEXEC()[0] && p[0 + 1] == JExitIfNoENOEXEC()[1];
    var m1 := m.(pc := 1, regs := m.regs[0 := Word(ReturnValue(k))]);
    ExecOp(step, p, k, m, LoadDWord(0, 1, 16), m1, 39);
    TestResult(step, p, k, m1, ReturnValue(k));
  }

  lemma FromEntry(step: Machine -> Machine, p: seq<Instruction>, k: Kernel, m: Machine, fd: int, tgid: int, parent: int)
    requires Implements(step, p, k) && Linked(p, fd, tgid, parent)
    requires |m.slot| == 8 && m == Start(m.slot)
    ensures Ends(step, m, 39, Expected(k, fd, tgid, parent))
  {
    EntryBlock(step, p, k, m);
    var m2 := m.(pc := if ReturnValue(k) != Wrap(-8) then 40 else 2, regs := m.regs[0 := Word(ReturnValue(k))]);
    if ReturnValue(k) != Wrap(-8) {
      FromExit(step, p, k, m2);
      EndsWithMore(step, m2, 2, 37, []);
    } else {
      FromCurrentTask(step, p, k, m2, fd, tgid, parent);
    }
  }

  /** The generated program, from entry to end: for every kernel memory, offset and helper result it
      stops within 39 steps with exit value 0 and no record left reserved, never reads an unset or
      clobbered register, and does to the ring buffer exactly what it is for. */
  lemma ProgramRuns(k: Kernel, slot: seq<Byte>, fd: int, tgid: int, parent: int)
    requires |slot| == 8
    ensures var f := Run(Program(fd, tgid, parent), k, Start(slot), 39);
            f.status == Done(0) && f.record == None && f.trace == Expected(k, fd, tgid, parent)
  {
    var p, m := Program(fd, tgid, parent), Start(slot);
    var step := x => Step(p, k, x);
    ProgramIsLaid(fd, tgid, parent);
    Labels(p, fd, tgid, parent);
    FromEntry(step, p, k, m, fd, tgid, parent);
    assert m.trace + Expected(k, fd, tgid, parent) == Expected(k, fd, tgid, parent);
  }

  // ---------- The ring buffer protocol and the reader ----------

  /** The thread group ids `processRecord` reads out of a record: real parent, then current task. */
  function Decode(order: Order, raw: seq<Byte>): (nat, nat)
    requires |raw| >= 8
  {
    (Uint32(order, raw[..4]), Uint32(order, raw[4..8]))
  }

  /** Space is reserved only after ENOEXEC and only in the given map, every successful reservation is followed by exactly one
      submit or discard and by nothing else, and in either byte order a submitted record decodes to
      the ids of the real parent and of the current task. */
  lemma RecordsDecode(k: Kernel, slot: seq<Byte>, fd: int, tgid: int, parent: int)
    requires |slot| == 8
    ensures var trace := Run(Program(fd, tgid, parent), k, Start(slot), 39).trace;
            && (trace != [] ==> ReturnValue(k) == TwoTo64 - 8)
            && (forall i | 0 <= i < |trace| ::
                  match trace[i]
                  case Reserve(ring, size, ok) => ring == fd && size == 8 && i == 0 && |trace| == if ok then 2 else 1
                  case Submit(bytes) =>
                    && i == 1
                    && |bytes| == 8
                    && Decode(k.order, bytes) == (TgidOf(k, RealParent(k, parent), tgid), TgidOf(k, k.currentTask, tgid))
                  case Discard => i == 1)
            && (trace != [] ==> trace[0].Reserve?)
  {
    ProgramRuns(k, slot, fd, tgid, parent);
    var first, second := TgidBytes(k, RealParent(k, parent), tgid), TgidBytes(k, k.currentTask, tgid);
    assert (first + second)[..4] == first && (first + second)[4..8] == second;
  }

  /** The container runtime's answer for a pod UUID; an empty name means it knows no such pod. */
  datatype CriResult = CriFailed | CriPod(name: string, ns: string)

  datatype RecordResult = TooShort | RuntimeFailed | NoPodFound | EventFor(podName: string, podNamespace: string, containerId: string)

  /** What asking about one process gives: an error, a pod, or nothing, which moves on to the next. */
  ghost predicate Answers(pid: nat, cgroup: nat -> Option<(string, string)>, cri: string -> CriResult, r: RecordResult) {
    && cgroup(pid).Some?
    && match cri(cgroup(pid).value.0)
       case CriFailed => r == RuntimeFailed
       case CriPod(name, ns) => name != "" && r == EventFor(name, ns, cgroup(pid).value.1)
  }

  /** The process is in no pod that anybody knows. */
  predicate Unknown(pid: nat, cgroup: nat -> Option<(string, string)>, cri: string -> CriResult) {
    cgroup(pid).None? || (cri(cgroup(pid).value.0).CriPod? && cri(cgroup(pid).value.0).name == "")
  }

  /** The current task, whose id is in the second half of the record, is asked about before its parent,
      whose id is in the first; the first answer counts. */
  method ProcessRecord(order: Order, raw: seq<Byte>, cgroup: nat -> Option<(string, string)>, cri: string -> CriResult)
    returns (r: RecordResult)
    ensures |raw| < 8 <==> r == TooShort
    ensures |raw| >= 8 ==>
              var parent, current := Uint32(order, raw[..4]), Uint32(order, raw[4..8]);
              || Answers(current, cgroup, cri, r)
              || (Unknown(current, cgroup, cri) && Answers(parent, cgroup, cri, r))
              || (Unknown(current, cgroup, cri) && Unknown(parent, cgroup, cri) && r == NoPodFound)
  {
    if |raw| < 8 {
      return TooShort;
    }
    var parent, current := Uint32(order, raw[..4]), Uint32(order, raw[4..8]);
    var pids := [current, parent];
    for i := 0 to |pids|
      invariant forall j | 0 <= j < i :: Unknown(pids[j], cgroup, cri)
    {
      assert i == 1 ==> Unknown(pids[0], cgroup, cri);
      var ids := cgroup(pids[i]);
      if ids.None? {
        continue;
      }
      match cri(ids.value.0) {
        case CriFailed =>
          return RuntimeFailed;
        case CriPod(name, ns) =>
          if name == "" {
            continue;
          }
          return EventFor(name, ns, ids.value.1);
      }
    }
    assert Unknown(pids[0], cgroup, cri) && Unknown(pids[1], cgroup, cri);
    return NoPodFound;
  }
}
