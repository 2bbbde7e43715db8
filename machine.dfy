/** The execution semantics of the CPU as functions on values: the state,
    ADD Vx,Vy with its carry flag, one fetch-decode-execute cycle, and a run
    of at most `fuel` cycles. */
module Machine {
  import opened Opcode
  import opened Bits

  /** Sizes of the register file and of memory. */
  const RegisterCount := 16
  const MemorySize := 0x1000

  /** Register VF, which ADD Vx,Vy overwrites with its carry. */
  const Flag: Nibble := 0xF

  /** A snapshot of the CPU record: registers V0..VF, the position of the next
      opcode, and memory. */
  datatype State = State(registers: seq<Byte>, position: nat, memory: seq<Byte>)

  predicate Valid(s: State)
  {
    |s.registers| == RegisterCount && |s.memory| == MemorySize
  }

  /** The two bytes of an opcode at the position are inside memory. */
  predicate CanFetch(s: State)
  {
    Valid(s) && s.position + 1 < MemorySize
  }

  /** The opcode at the current position, big-endian: the byte there is its
      high byte and the byte after it its low byte. */
  function Fetch(s: State): (op: Word)
    requires CanFetch(s)
    ensures op / 0x100 == s.memory[s.position] && op % 0x100 == s.memory[s.position + 1]
  {
    var hi, lo := s.memory[s.position], s.memory[s.position + 1];
    DivModUnique(hi as int * 0x100 + lo, 0x100, hi as int, lo as int);
    hi as int * 0x100 + lo
  }

  /** The carry out of an 8-bit addition. */
  function Carry(a: Byte, b: Byte): (f: Byte)
    ensures f == 0 || f == 1
    ensures f * 0x100 <= a as int + b < (f + 1) * 0x100
  {
    if a as int + b > 0xFF then 1 else 0
  }

  /** ADD Vx,Vy: the sum is formed in 16 bits, its low byte goes to Vx, and
      then VF receives the carry, on every call. Unless x is VF itself, Vx and
      VF together hold the full sum, and no other register changes. */
  function AddXY(regs: seq<Byte>, x: Nibble, y: Nibble): (r: seq<Byte>)
    requires |regs| == RegisterCount
    ensures |r| == RegisterCount
    ensures r[Flag] == Carry(regs[x], regs[y])
    ensures x != Flag ==> r[x] as int + 0x100 * r[Flag] as int == regs[x] as int + regs[y]
    ensures forall i :: 0 <= i < RegisterCount && i != x && i != Flag ==> r[i] == regs[i]
  {
    var result: Word := regs[x] as int + regs[y];
    var truncated: Byte := result % 0x100;
    regs[x := truncated][Flag := if result > 0xFF then 1 else 0]
  }

  /** Vx receives the sum modulo 256, which is what the cast to an 8-bit
      register does. */
  lemma AddXYTruncates(regs: seq<Byte>, x: Nibble, y: Nibble)
    requires |regs| == RegisterCount && x != Flag
    ensures AddXY(regs, x, y)[x] == (regs[x] as int + regs[y]) % 0x100
  {
    var r := AddXY(regs, x, y);
    DivModUnique(regs[x] as int + regs[y], 0x100, r[Flag] as int, r[x] as int);
  }

  /** What one cycle produces: the next state, whether the machine halted,
      and the opcode reported as unhandled, if any. */
  datatype Cycle = Cycle(next: State, halted: bool, report: seq<Word>)

  /** One turn of the run loop: fetch, advance the position by 2, decode and
      dispatch. */
  function Step(s: State): (c: Cycle)
    requires CanFetch(s)
    ensures Valid(c.next)
    ensures c.next.position == s.position + 2 && c.next.memory == s.memory
  {
    var op := Fetch(s);
    var advanced := s.(position := s.position + 2);
    match Dispatch(op)
    case Halt => Cycle(advanced, true, [])
    case Add(x, y) => Cycle(advanced.(registers := AddXY(advanced.registers, x, y)), false, [])
    case Unhandled => Cycle(advanced, false, [op])
  }

  /** What one cycle does, by opcode: HALT stops with the registers as they
      were; 8XY4 adds Vy into Vx; every other opcode is reported and changes
      nothing but the position. */
  lemma StepCases(s: State)
    requires CanFetch(s)
    ensures var c, op := Step(s), Fetch(s);
      (c.halted <==> op == 0) &&
      (op == 0 ==> c.next.registers == s.registers && c.report == []) &&
      (op / 0x1000 == 8 && op % 0x10 == 4 ==>
         !c.halted && c.report == [] &&
         c.next.registers == AddXY(s.registers, op / 0x100 % 0x10, op / 0x10 % 0x10)) &&
      (op != 0 && !(op / 0x1000 == 8 && op % 0x10 == 4) ==>
         !c.halted && c.report == [op] && c.next.registers == s.registers)
  {
    DispatchCases(Fetch(s));
  }

  /** The result of running: the final state, whether HALT was reached, the
      opcodes reported as unhandled, in order, and the number of cycles. */
  datatype Outcome = Outcome(final: State, halted: bool, reports: seq<Word>, cycles: nat)

  /** An outcome preceded by `cycles` earlier cycles that reported `reports`. */
  function After(reports: seq<Word>, cycles: nat, o: Outcome): Outcome
  {
    Outcome(o.final, o.halted, reports + o.reports, cycles + o.cycles)
  }

  /** The run loop with at most `fuel` cycles. Every fetch stays inside memory
      because the position after `fuel` cycles does not pass its end. */
  function Run(s: State, fuel: nat): (o: Outcome)
    requires Valid(s) && s.position + 2 * fuel <= MemorySize
    ensures Valid(o.final) && o.final.memory == s.memory
    ensures o.cycles <= fuel && o.final.position == s.position + 2 * o.cycles
    ensures !o.halted ==> o.cycles == fuel
    ensures o.halted ==> o.cycles >= 1
    ensures |o.reports| <= o.cycles
    decreases fuel
  {
    if fuel == 0 then Outcome(s, false, [], 0)
    else
      var c := Step(s);
      if c.halted then Outcome(c.next, true, [], 1)
      else After(c.report, 1, Run(c.next, fuel - 1))
  }

  /** A run that halts stopped on a HALT opcode, the two zero bytes just
      before the final position. */
  lemma {:induction false} RunHaltedOnHalt(s: State, fuel: nat)
    requires Valid(s) && s.position + 2 * fuel <= MemorySize
    ensures var o := Run(s, fuel);
      o.halted ==> s.memory[o.final.position - 2] == 0 && s.memory[o.final.position - 1] == 0
    decreases fuel
  {
    if fuel > 0 {
      var c := Step(s);
      if c.halted {
        StepCases(s);
        assert Run(s, fuel).final.position == s.position + 2;
      } else {
        RunHaltedOnHalt(c.next, fuel - 1);
        assert Run(s, fuel) == After(c.report, 1, Run(c.next, fuel - 1));
      }
    }
  }

  /** A cycle halts only on two zero bytes. */
  lemma StepHaltsOnZero(s: State)
    requires CanFetch(s) && Step(s).halted
    ensures s.memory[s.position] == 0 && s.memory[s.position + 1] == 0
  {
    assert Dispatch(Fetch(s)) == Halt;
  }

  /** The largest fuel the precondition of Run allows loses nothing: no
      opcode moves the position back, so a run with that fuel either halts or
      stops where the next fetch would read past the end of memory. */
  lemma RunCoversMemory(s: State)
    requires Valid(s) && s.position <= MemorySize
    ensures var o := Run(s, (MemorySize - s.position) / 2);
      !o.halted ==> !CanFetch(o.final)
  {
  }

  /** A cycle that halts ends the run. */
  lemma RunStopsAt(s: State, fuel: nat)
    requires Valid(s) && s.position + 2 * fuel <= MemorySize && fuel >= 1
    requires Step(s).halted
    ensures Run(s, fuel) == Outcome(Step(s).next, true, [], 1)
  {
  }

  /** A cycle that does not halt is followed by the run of the rest of the
      fuel from the state it leaves. */
  lemma RunContinues(s: State, fuel: nat)
    requires Valid(s) && s.position + 2 * fuel <= MemorySize && fuel >= 1
    requires !Step(s).halted
    ensures Run(s, fuel) == After(Step(s).report, 1, Run(Step(s).next, fuel - 1))
  {
  }

  /** The empty prefix of a run: no cycles, nothing reported. */
  lemma RunStarts(start: State, fuel: nat, reports: seq<Word>, n: nat)
    requires Valid(start) && start.position + 2 * fuel <= MemorySize
    requires reports == [] && n == 0
    ensures Run(start, fuel) == After(reports, n, Run(start, fuel - n))
  {
    var o := Run(start, fuel - n);
    assert [] + o.reports == o.reports;
    assert After(reports, n, o) == o;
  }

  /** One more cycle that does not halt extends a run prefix: if the first n
      cycles reported `reports` and left `current`, and the next one moves on
      to `next` reporting `report`, then the first n' = n + 1 cycles reported
      reports' = reports + report and left `next`. */
  lemma RunGoesOn(start: State, fuel: nat, reports: seq<Word>, n: nat, current: State,
                  next: State, report: seq<Word>, reports': seq<Word>, n': nat)
    requires Valid(start) && start.position + 2 * fuel <= MemorySize
    requires n < fuel && Valid(current) && current.position + 2 * (fuel - n) <= MemorySize
    requires Run(start, fuel) == After(reports, n, Run(current, fuel - n))
    requires Step(current) == Cycle(next, false, report)
    requires reports' == reports + report && n' == n + 1
    ensures Run(start, fuel) == After(reports', n', Run(next, fuel - n'))
  {
    RunContinues(current, fuel - n);
    AfterAfter(reports, n, report, 1, Run(next, fuel - n'));
  }

  /** HALT ends the run after its own cycle, with the position just past it and
      the registers as they were. */
  lemma RunAtHalt(s: State, fuel: nat)
    requires Valid(s) && s.position + 2 * fuel <= MemorySize && fuel >= 1
    requires s.memory[s.position] == 0 && s.memory[s.position + 1] == 0
    ensures Run(s, fuel) == Outcome(s.(position := s.position + 2), true, [], 1)
  {
  }

  /** An opcode 8XY4 adds Vy into Vx and execution goes on at the next
      opcode. */
  lemma RunPastAdd(s: State, fuel: nat, x: Nibble, y: Nibble)
    requires Valid(s) && s.position + 2 * fuel <= MemorySize && fuel >= 1
    requires Fetch(s) == Encode(Fields(8, x, y, 4))
    ensures Run(s, fuel) ==
      After([], 1, Run(State(AddXY(s.registers, x, y), s.position + 2, s.memory), fuel - 1))
  {
    ClassifyAddAnyRegisters(x, y);
  }

  /** An unhandled opcode is reported and execution goes on at the next
      opcode. */
  lemma RunPastUnhandled(s: State, fuel: nat)
    requires Valid(s) && s.position + 2 * fuel <= MemorySize && fuel >= 1
    requires Dispatch(Fetch(s)).Unhandled?
    ensures Run(s, fuel) == After([Fetch(s)], 1, Run(s.(position := s.position + 2), fuel - 1))
  {
  }

  /** Prefixing twice is prefixing once with everything. */
  lemma AfterAfter(r1: seq<Word>, k1: nat, r2: seq<Word>, k2: nat, o: Outcome)
    ensures After(r1, k1, After(r2, k2, o)) == After(r1 + r2, k1 + k2, o)
  {
    assert r1 + (r2 + o.reports) == (r1 + r2) + o.reports;
  }

  /** From V0=5, V1=V2=V3=10 the program halts after four cycles with
      V0 = 35, and no addition carried. */
  lemma Scenario(s: State, fuel: nat)
    requires Valid(s) && s.position == 0 && 4 <= fuel <= MemorySize / 2
    requires s.registers[0] == 5 && s.registers[1] == 10
    requires s.registers[2] == 10 && s.registers[3] == 10
    requires s.memory[0] == 0x80 && s.memory[1] == 0x14 && s.memory[2] == 0x80 && s.memory[3] == 0x24
    requires s.memory[4] == 0x80 && s.memory[5] == 0x34 && s.memory[6] == 0x00 && s.memory[7] == 0x00
    ensures var o := Run(s, fuel);
      o.halted && o.cycles == 4 && o.reports == [] && o.final.position == 8 &&
      o.final.registers[0] == 35 && o.final.registers[Flag] == 0
  {
    RunPastAdd(s, fuel, 0, 1);
    var t := State(AddXY(s.registers, 0, 1), 2, s.memory);
    assert t.registers[0] == 15;
    assert t.registers[2] == 10 && t.registers[3] == 10;
    ScenarioFrom2(t, fuel - 1);
    var rest := Run(t, fuel - 1);
    assert Run(s, fuel) == After([], 1, rest);
    assert [] + rest.reports == rest.reports;
  }

  /** The scenario from its second instruction on. */
  lemma ScenarioFrom2(s: State, fuel: nat)
    requires Valid(s) && s.position == 2 && 3 <= fuel <= MemorySize / 2 - 1
    requires s.registers[0] == 15 && s.registers[2] == 10 && s.registers[3] == 10
    requires s.memory[2] == 0x80 && s.memory[3] == 0x24
    requires s.memory[4] == 0x80 && s.memory[5] == 0x34 && s.memory[6] == 0x00 && s.memory[7] == 0x00
    ensures var o := Run(s, fuel);
      o.halted && o.cycles == 3 && o.reports == [] && o.final.position == 8 &&
      o.final.registers[0] == 35 && o.final.registers[Flag] == 0
  {
    RunPastAdd(s, fuel, 0, 2);
    var t := State(AddXY(s.registers, 0, 2), 4, s.memory);
    assert t.registers[0] == 25 && t.registers[3] == 10;
    ScenarioFrom4(t, fuel - 1);
    var rest := Run(t, fuel - 1);
    assert Run(s, fuel) == After([], 1, rest);
    assert [] + rest.reports == rest.reports;
  }

  /** The scenario from its third instruction on. */
  lemma ScenarioFrom4(s: State, fuel: nat)
    requires Valid(s) && s.position == 4 && 2 <= fuel <= MemorySize / 2 - 2
    requires s.registers[0] == 25 && s.registers[3] == 10
    requires s.memory[4] == 0x80 && s.memory[5] == 0x34 && s.memory[6] == 0x00 && s.memory[7] == 0x00
    ensures var o := Run(s, fuel);
      o.halted && o.cycles == 2 && o.reports == [] && o.final.position == 8 &&
      o.final.registers[0] == 35 && o.final.registers[Flag] == 0
  {
    RunPastAdd(s, fuel, 0, 3);
    var t := State(AddXY(s.registers, 0, 3), 6, s.memory);
    RunAtHalt(t, fuel - 1);
  }
}
