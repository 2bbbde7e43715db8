/** The CPU record with its registers and memory updated in place, the
    fetch, ADD Vx,Vy and run loop as methods on it, each proved against the
    value semantics in module Machine, and the program that main loads. */
module Emulator {
  import opened Opcode
  import opened Machine

  class Cpu {
    /** Registers V0..VF. */
    const registers: array<Byte>
    /** Position in memory of the next opcode. */
    var position: nat
    /** The 4096 bytes of memory. */
    const memory: array<Byte>

    /** The two arrays have their fixed sizes, so they are distinct parts of
        the record. */
    ghost predicate Valid()
    {
      registers.Length == RegisterCount && memory.Length == MemorySize
    }

    /** The record as a value. */
    ghost function Abs(): State
      reads this, registers, memory
    {
      State(registers[..], position, memory[..])
    }

    /** A record filled with zeros. */
    constructor ()
      ensures Valid() && fresh(registers) && fresh(memory)
      ensures Abs() == State(seq(RegisterCount, _ => 0), 0, seq(MemorySize, _ => 0))
    {
      registers := new Byte[RegisterCount](_ => 0);
      memory := new Byte[MemorySize](_ => 0);
      position := 0;
    }

    /** The opcode at the current position, high byte first: the fetch of
        the value semantics. Nothing checks the bounds, so the caller keeps
        both bytes inside memory. */
    function ReadOpcode(): (op: Word)
      reads this, registers, memory
      requires Valid() && position + 1 < MemorySize
      ensures op == Fetch(Abs())
    {
      Combine(memory[position], memory[position + 1])
    }

    /** ADD Vx,Vy on the registers in place: Vx receives the low byte of the
        16-bit sum, then VF the carry. */
    method AddXY(x: Nibble, y: Nibble)
      requires Valid()
      modifies registers
      ensures registers[..] == Machine.AddXY(old(registers[..]), x, y)
      ensures position == old(position) && memory[..] == old(memory[..])
    {
      var arg1 := registers[x];
      var arg2 := registers[y];
      var result: Word := arg1 as int + arg2;
      registers[x] := result % 0x100;
      if result > 0xFF {
        registers[Flag] := 1;
      } else {
        registers[Flag] := 0;
      }
    }

    /** One turn of the run loop: fetch, advance the position by 2, decode
        into four nibbles and dispatch on them. It does what Machine.Step
        does to the record, and reports the same halt status and unhandled
        opcode. */
    method Cycle() returns (halted: bool, report: seq<Word>)
      requires Valid() && position + 1 < MemorySize
      modifies this, registers
      ensures var c := Machine.Step(old(Abs()));
        Abs() == c.next && halted == c.halted && report == c.report
    {
      ghost var s := Abs();
      var opcode := ReadOpcode();
      position := position + 2;
      var f := Decode(opcode);
      assert Dispatch(opcode) == Classify(f);
      halted, report := false, [];
      if f.c == 0 && f.x == 0 && f.y == 0 && f.d == 0 {
        halted := true;
        assert Abs() == s.(position := s.position + 2);
      } else if f.c == 8 && f.d == 4 {
        AddXY(f.x, f.y);
        assert Abs() == State(Machine.AddXY(s.registers, f.x, f.y), s.position + 2, s.memory);
      } else {
        report := [opcode];
        assert Abs() == s.(position := s.position + 2);
      }
    }

    /** The run loop, cut off after `fuel` cycles. It ends in the state, with
        the halt status and the report of unhandled opcodes, that Machine.Run
        gives for the record it started from; memory is never written. */
    method Run(fuel: nat) returns (halted: bool, reports: seq<Word>)
      requires Valid() && position + 2 * fuel <= MemorySize
      modifies this, registers
      ensures var o := Machine.Run(old(Abs()), fuel);
        Abs() == o.final && halted == o.halted && reports == o.reports
    {
      ghost var start := Abs();
      ghost var current := start;
      var n := 0;
      halted := false;
      reports := [];
      RunStarts(start, fuel, reports, n);
      while n < fuel
        invariant n <= fuel && position + 2 * (fuel - n) <= MemorySize
        invariant current == Abs()
        invariant Machine.Run(start, fuel) == After(reports, n, Machine.Run(current, fuel - n))
      {
        var stop, report := Cycle();
        if stop {
          RunStopsAt(current, fuel - n);
          current := Abs();
          assert reports + [] == reports;
          halted := true;
          return;
        }
        ghost var next, before, done := Abs(), reports, n;
        reports := reports + report;
        n := n + 1;
        RunGoesOn(start, fuel, before, done, current, next, report, reports, n);
        current := next;
      }
      assert reports + [] == reports;
    }
  }

  /** What main does: load V0=5, V1=V2=V3=10 and the program ADD V0,V1;
      ADD V0,V2; ADD V0,V3; HALT at address 0, and run. The run halts with
      no unhandled opcode, V0 = 35 and VF = 0. */
  method MainScenario() returns (halted: bool, reports: seq<Word>, v0: Byte, vf: Byte)
    ensures halted && reports == [] && v0 == 35 && vf == 0
  {
    var cpu := new Cpu();
    cpu.position := 0;
    cpu.registers[0] := 5;
    cpu.registers[1] := 10;
    cpu.registers[2] := 10;
    cpu.registers[3] := 10;
    cpu.memory[0], cpu.memory[1] := 0x80, 0x14;
    cpu.memory[2], cpu.memory[3] := 0x80, 0x24;
    cpu.memory[4], cpu.memory[5] := 0x80, 0x34;
    cpu.memory[6], cpu.memory[7] := 0x00, 0x00;
    ghost var loaded := cpu.Abs();
    Scenario(loaded, MemorySize / 2);
    halted, reports := cpu.Run(MemorySize / 2);
    v0, vf := cpu.registers[0], cpu.registers[Flag];
  }
}
