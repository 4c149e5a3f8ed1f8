/**
 The program that the exec-error daemon generates and attaches to `sys_exit_execve`
 (tracepoint_program.go), and the decoding of its records (tracepoint.go).
 */
module Tracepoint {
  import opened Decimal
  import opened Bpf

  const ExitLabel := "exit"
  const CleanupLabel := "cleanup"
  const PayloadSize := 8

  // ---------- The instruction builders ----------

  function Plain(op: Op): Instruction {
    Instruction(op, None)
  }

  function JExitIfNoENOEXEC(): seq<Instruction> {
    [Plain(LoadDWord(0, 1, 16)),
     Plain(JumpNotEqual(0, -8, ExitLabel))]
  }

  function GetCurrentTaskBlock(): seq<Instruction> {
    [Plain(Call(GetCurrentTask)),
     Plain(MovReg(6, 0))]
  }

  function RingBufReserve(fd: int): seq<Instruction> {
    [Plain(LoadMapPtr(1, fd)),
     Plain(MovImm(2, PayloadSize)),
     Plain(MovImm(3, 0)),
     Plain(Call(RingbufReserve)),
     Plain(JumpEqual(0, 0, ExitLabel)),
     Plain(MovReg(7, 0))]
  }

  function LoadIntoRingBufEvent(src: Reg, srcOffset: int, size: int, dstOffset: int): seq<Instruction> {
    [Plain(MovReg(1, 7)),
     Plain(AddImm(1, dstOffset)),
     Plain(MovImm(2, size)),
     Plain(MovReg(3, src)),
     Plain(AddImm(3, srcOffset)),
     Plain(Call(ProbeReadKernel)),
     Plain(JumpNotEqual(0, 0, CleanupLabel))]
  }

  function LoadRealParent(offset: int): seq<Instruction> {
    [Plain(MovReg(1, 10)),
     Plain(AddImm(1, -8)),
     Plain(MovImm(2, 8)),
     Plain(MovReg(3, 6)),
     Plain(AddImm(3, offset)),
     Plain(Call(ProbeReadKernel)),
     Plain(JumpNotEqual(0, 0, CleanupLabel)),
     Plain(LoadDWord(8, 10, -8)),
     Plain(JumpEqual(8, 0, CleanupLabel))]
  }

  function SubmitEvent(): seq<Instruction> {
    [Plain(MovReg(1, 7)),
     Plain(MovImm(2, 0)),
     Plain(Call(RingbufSubmit)),
     Plain(Jump(ExitLabel))]
  }

  function RollbackEvent(): seq<Instruction> {
    [Instruction(MovReg(1, 7), Some(CleanupLabel)),
     Plain(MovImm(2, 0)),
     Plain(Call(RingbufDiscard))]
  }

  function ExitBlock(): seq<Instruction> {
    [Instruction(MovImm(0, 0), Some(ExitLabel)),
     Plain(Return)]
  }

  function Blocks(fd: int, tgidOffset: int, realParentOffset: int): seq<seq<Instruction>> {
    [JExitIfNoENOEXEC(),
     GetCurrentTaskBlock(),
     RingBufReserve(fd),
     LoadIntoRingBufEvent(6, tgidOffset, 4, 4),
     LoadRealParent(realParentOffset),
     LoadIntoRingBufEvent(8, tgidOffset, 4, 0),
     SubmitEvent(),
     RollbackEvent(),
     ExitBlock()]
  }

  function Flatten(blocks: seq<seq<Instruction>>): seq<Instruction> {
    if blocks == [] then [] else blocks[0] + Flatten(blocks[1..])
  }

  function Program(fd: int, tgidOffset: int, realParentOffset: int): seq<Instruction> {
    Flatten(Blocks(fd, tgidOffset, realParentOffset))
  }

  method AppendAll(blocks: seq<seq<Instruction>>) returns (instructions: seq<Instruction>)
    ensures instructions == Flatten(blocks)
  {
    instructions := [];
    for i := 0 to |blocks|
      invariant instructions + Flatten(blocks[i..]) == Flatten(blocks)
    {
      assert blocks[i..][1..] == blocks[i + 1..];
      instructions := instructions + blocks[i];
    }
  }

  datatype InitResult = Initialized | NoEventsMap | NoOffsets

  class Spec {
    var eventsFd: int
    var tgidOffset: Option<int>
    var realParentOffset: Option<int>
    var instructions: seq<Instruction>

    method InitializeProgSpec() returns (r: InitResult)
      modifies this`instructions
      ensures r.NoEventsMap? <==> eventsFd == 0
      ensures r.NoOffsets? <==> eventsFd != 0 && (tgidOffset.None? || realParentOffset.None?)
      ensures r.Initialized? ==> instructions == Program(eventsFd, tgidOffset.value, realParentOffset.value)
      ensures !r.Initialized? ==> instructions == old(instructions)
    {
      if eventsFd == 0 {
        return NoEventsMap;
      }
      if tgidOffset.None? || realParentOffset.None? {
        return NoOffsets;
      }
      instructions := AppendAll(Blocks(eventsFd, tgidOffset.value, realParentOffset.value));
      return Initialized;
    }
  }

  // ---------- Where the blocks sit and where the labels point ----------

  predicate CodeAt(p: seq<Instruction>, offset: nat, block: seq<Instruction>) {
    offset + |block| <= |p| && forall i | 0 <= i < |block| :: p[offset + i] == block[i]
  }

  lemma {:induction false} ResolveIs(p: seq<Instruction>, target: string, n: nat)
    requires n < |p| && p[n].symbol == Some(target)
    requires forall i | 0 <= i < n :: p[i].symbol != Some(target)
    ensures Resolve(p, target) == Some(n)
  {
    if n > 0 {
      assert p[0].symbol != Some(target);
      ResolveIs(p[1..], target, n - 1);
    }
  }

  /** Everything the proofs need to know about the generated list. */
  predicate Laid(p: seq<Instruction>, fd: int, tgid: int, parent: int) {
    && |p| == 42
    && CodeAt(p, 0, JExitIfNoENOEXEC())
    && CodeAt(p, 2, GetCurrentTaskBlock())
    && CodeAt(p, 4, RingBufReserve(fd))
    && CodeAt(p, 10, LoadIntoRingBufEvent(6, tgid, 4, 4))
    && CodeAt(p, 17, LoadRealParent(parent))
    && CodeAt(p, 26, LoadIntoRingBufEvent(8, tgid, 4, 0))
    && CodeAt(p, 33, SubmitEvent())
    && CodeAt(p, 37, RollbackEvent())
    && CodeAt(p, 40, ExitBlock())
  }

  function Offset(blocks: seq<seq<Instruction>>, j: nat): nat
    requires j <= |blocks|
  {
    if j == 0 then 0 else Offset(blocks, j - 1) + |blocks[j - 1]|
  }

  lemma {:induction false} OffsetShift(blocks: seq<seq<Instruction>>, j: nat)
    requires 0 < j <= |blocks|
    ensures Offset(blocks, j) == |blocks[0]| + Offset(blocks[1..], j - 1)
  {
    if j > 1 {
      OffsetShift(blocks, j - 1);
    }
  }

  lemma {:induction false} BlockAt(blocks: seq<seq<Instruction>>, j: nat)
    requires j < |blocks|
    ensures CodeAt(Flatten(blocks), Offset(blocks, j), blocks[j])
  {
    if j > 0 {
      OffsetShift(blocks, j);
      BlockAt(blocks[1..], j - 1);
    }
  }

  lemma {:induction false} FlattenLength(blocks: seq<seq<Instruction>>)
    ensures |Flatten(blocks)| == Offset(blocks, |blocks|)
  {
    if blocks != [] {
      OffsetShift(blocks, |blocks|);
      FlattenLength(blocks[1..]);
    }
  }

  lemma BlockOffsets(fd: int, tgid: int, parent: int)
    ensures var b := Blocks(fd, tgid, parent);
            && Offset(b, 0) == 0 && Offset(b, 1) == 2 && Offset(b, 2) == 4 && Offset(b, 3) == 10 && Offset(b, 4) == 17
            && Offset(b, 5) == 26 && Offset(b, 6) == 33 && Offset(b, 7) == 37 && Offset(b, 8) == 40 && Offset(b, 9) == 42
  {
    var b := Blocks(fd, tgid, parent);
    assert Offset(b, 1) == 2;
    assert Offset(b, 2) == 4;
    assert Offset(b, 3) == 10;
    assert Offset(b, 4) == 17;
    assert Offset(b, 5) == 26;
    assert Offset(b, 6) == 33;
    assert Offset(b, 7) == 37;
    assert Offset(b, 8) == 40;
  }

  lemma ProgramIsLaid(fd: int, tgid: int, parent: int)
    ensures Laid(Program(fd, tgid, parent), fd, tgid, parent)
  {
    var b := Blocks(fd, tgid, parent);
    BlockOffsets(fd, tgid, parent);
    FlattenLength(b);
    forall j | 0 <= j < 9 ensures CodeAt(Flatten(b), Offset(b, j), b[j]) {
      BlockAt(b, j);
    }
    assert CodeAt(Flatten(b), Offset(b, 0), b[0]) && CodeAt(Flatten(b), Offset(b, 1), b[1]);
    assert CodeAt(Flatten(b), Offset(b, 2), b[2]) && CodeAt(Flatten(b), Offset(b, 3), b[3]);
    assert CodeAt(Flatten(b), Offset(b, 4), b[4]) && CodeAt(Flatten(b), Offset(b, 5), b[5]);
    assert CodeAt(Flatten(b), Offset(b, 6), b[6]) && CodeAt(Flatten(b), Offset(b, 7), b[7]);
    assert CodeAt(Flatten(b), Offset(b, 8), b[8]);
  }

  lemma SymbolsBefore(p: seq<Instruction>, fd: int, tgid: int, parent: int, i: nat)
    requires Laid(p, fd, tgid, parent) && i < 40 && i != 37
    ensures p[i].symbol == None
  {
    if i < 2 { assert p[0 + i] == JExitIfNoENOEXEC()[i]; }
    else if i < 4 { assert p[2 + (i - 2)] == GetCurrentTaskBlock()[i - 2]; }
    else if i < 10 { assert p[4 + (i - 4)] == RingBufReserve(fd)[i - 4]; }
    else if i < 17 { assert p[10 + (i - 10)] == LoadIntoRingBufEvent(6, tgid, 4, 4)[i - 10]; }
    else if i < 26 { assert p[17 + (i - 17)] == LoadRealParent(parent)[i - 17]; }
    else if i < 33 { assert p[26 + (i - 26)] == LoadIntoRingBufEvent(8, tgid, 4, 0)[i - 26]; }
    else if i < 37 { assert p[33 + (i - 33)] == SubmitEvent()[i - 33]; }
    else { assert p[37 + (i - 37)] == RollbackEvent()[i - 37]; }
  }

  lemma Labels(p: seq<Instruction>, fd: int, tgid: int, parent: int)
    requires Laid(p, fd, tgid, parent)
    ensures Resolve(p, CleanupLabel) == Some(37) && Resolve(p, ExitLabel) == Some(40)
  {
    forall i | 0 <= i < 40 && i != 37 ensures p[i].symbol == None {
      SymbolsBefore(p, fd, tgid, parent, i);
    }
    assert p[37 + 0] == RollbackEvent()[0] && p[40 + 0] == ExitBlock()[0];
    assert CleanupLabel[0] != ExitLabel[0];
    ResolveIs(p, CleanupLabel, 37);
    ResolveIs(p, ExitLabel, 40);
  }
}
