/** The fetch-decode-execute machine (src/machine.rs). It owns one
    line-addressed `Memory`; `run_line` executes one decoded line against
    it and `run` fetches lines until `read_next` finds none. Only four
    opcodes are implemented; every other arm of the dispatcher is
    `todo!()`, which panics. */
module VirtualMachine {

  import opened Wrappers
  import opened Types
  import opened LineMemory

  /** How a bounded run ends. `OutOfFuel` exists only in the model: the
      source loop has no bound and may run forever. */
  datatype RunResult = Halted | Faulted(reason: Panic) | OutOfFuel

  /** The instructions `run_line` implements. */
  predicate Implemented(instr: Instruction)
  {
    instr.NoOperation? || instr.Jump? || instr.JumpIfNotEqual? || instr.MoveIntegerUnsigned?
  }

  /** `run_line` on the memory's state, after the fetch has already moved
      the program counter past `line`. */
  function Execute(s: MemoryState, line: Line): (r: Outcome<MemoryState>)
    ensures r.Panicked? <==> !Implemented(Decode(line))
    ensures r.Panicked? ==> r.reason == Unimplemented(line[0]) && line[0] in Opcodes
    ensures r.Ok? ==> |r.value.lines| >= |s.lines|
    ensures r.Ok? && r.value.pc != s.pc ==> Decode(line).Jump? || Decode(line).JumpIfNotEqual?
  {
    match Decode(line)
    case NoOperation => Ok(s)
    case Jump(address) => Ok(s.(pc := address))
    case JumpIfNotEqual(left, right, address) =>
      if Lookup(s.lines, left) != Lookup(s.lines, right) then Ok(s.(pc := address)) else Ok(s)
    case MoveIntegerUnsigned(n, address) =>
      Ok(s.(lines := Stored(s.lines, address.bits, NewLine(n.bits, 0, 0, 0))))
    case _ => Panicked(Unimplemented(line[0]))
  }

  lemma ExecuteNoOperation(s: MemoryState, line: Line)
    requires Decode(line) == NoOperation
    ensures Execute(s, line) == Ok(s)
  {
  }

  lemma ExecuteJump(s: MemoryState, line: Line, address: Address)
    requires Decode(line) == Jump(address)
    ensures Execute(s, line) == Ok(MemoryState(address, s.lines))
  {
  }

  /** The jump is taken exactly when the two `get`s differ; two addresses
      past the end both read `None` and so compare equal. */
  lemma ExecuteJumpIfNotEqual(s: MemoryState, line: Line, left: Address, right: Address, address: Address)
    requires Decode(line) == JumpIfNotEqual(left, right, address)
    ensures Execute(s, line).Ok? && Execute(s, line).value.lines == s.lines
    ensures Lookup(s.lines, left) != Lookup(s.lines, right) ==> Execute(s, line).value.pc == address
    ensures Lookup(s.lines, left) == Lookup(s.lines, right) ==> Execute(s, line).value.pc == s.pc
    ensures left.bits >= |s.lines| && right.bits >= |s.lines| ==> Execute(s, line).value == s
  {
  }

  lemma ExecuteMoveIntegerUnsigned(s: MemoryState, line: Line, n: UnsignedInteger, address: Address)
    requires Decode(line) == MoveIntegerUnsigned(n, address)
    ensures Execute(s, line).Ok?
    ensures Execute(s, line).value.pc == s.pc
    ensures Execute(s, line).value.lines == Stored(s.lines, address.bits, [n.bits, 0, 0, 0])
  {
  }

  /** Every declared opcode other than the four implemented ones panics. */
  lemma ExecuteUnimplemented(s: MemoryState, instr: Instruction)
    requires !Implemented(instr)
    ensures Execute(s, Encode(instr)) == Panicked(Unimplemented(Opcode(instr)))
  {
    var line := Encode(instr);
    assert Decode(line) == instr;
    assert line[0] == Opcode(instr);
  }

  /** `run` with at most `fuel` executed lines: it halts when the fetch
      finds no line, faults on a program-counter overflow or a `todo!()`,
      and runs out of fuel after `fuel` executed lines. */
  function RunSpec(s: MemoryState, fuel: nat): (r: (RunResult, MemoryState))
    ensures fuel == 0 ==> r == (OutOfFuel, s)
    ensures fuel > 0 && s.pc.bits >= |s.lines| ==> r == (Halted, s)
    ensures r.0.Faulted? ==> r.0.reason == ArithmeticOverflow || (r.0.reason.Unimplemented? && r.0.reason.opcode in Opcodes)
    decreases fuel
  {
    if fuel == 0 then (OutOfFuel, s)
    else
      var (fetched, s1) := NextLine(s);
      match fetched
      case Exhausted => (Halted, s1)
      case PcOverflow => (Faulted(ArithmeticOverflow), s1)
      case Fetched(line) =>
        match Execute(s1, line)
        case Panicked(reason) => (Faulted(reason), s1)
        case Ok(s2) => RunSpec(s2, fuel - 1)
  }

  /** `run` stops exactly when `read_next` returns `None`, so a halted run
      leaves the program counter at or past the last line. */
  lemma {:induction false} RunHaltsPastEnd(s: MemoryState, fuel: nat)
    ensures RunSpec(s, fuel).0 == Halted ==> RunSpec(s, fuel).1.pc.bits >= |RunSpec(s, fuel).1.lines|
    decreases fuel
  {
    if fuel > 0 {
      var (fetched, s1) := NextLine(s);
      if fetched.Fetched? && Execute(s1, fetched.line).Ok? {
        RunHaltsPastEnd(Execute(s1, fetched.line).value, fuel - 1);
      }
    }
  }

  /** Memory only ever grows while a program runs. */
  lemma {:induction false} RunNeverShrinks(s: MemoryState, fuel: nat)
    ensures |RunSpec(s, fuel).1.lines| >= |s.lines|
    decreases fuel
  {
    if fuel > 0 {
      var (fetched, s1) := NextLine(s);
      if fetched.Fetched? && Execute(s1, fetched.line).Ok? {
        RunNeverShrinks(Execute(s1, fetched.line).value, fuel - 1);
      }
    }
  }

  /** A run over lines that all decode to `NoOperation` steps through
      them one by one and halts at the end of memory. */
  lemma {:induction false} RunThroughNoOperations(s: MemoryState, fuel: nat)
    requires |s.lines| <= U32_MAX
    requires forall i :: s.pc.bits <= i < |s.lines| ==> Decode(s.lines[i]) == NoOperation
    requires fuel >= 1 && fuel > |s.lines| - s.pc.bits
    ensures RunSpec(s, fuel) == (Halted, if s.pc.bits < |s.lines| then s.(pc := Address(|s.lines|)) else s)
    decreases |s.lines| - s.pc.bits
  {
    if s.pc.bits < |s.lines| {
      var s1 := s.(pc := s.pc.Incr());
      assert NextLine(s) == (Fetched(s.lines[s.pc.bits]), s1);
      assert Execute(s1, s.lines[s.pc.bits]) == Ok(s1);
      assert RunSpec(s, fuel) == RunSpec(s1, fuel - 1);
      RunThroughNoOperations(s1, fuel - 1);
    }
  }

  // The unit tests of src/machine.rs, as statements about `RunSpec`.

  lemma RunEmptyProgram(fuel: nat)
    requires fuel >= 1
    ensures RunSpec(MemoryState(Address(0), []), fuel) == (Halted, MemoryState(Address(0), []))
  {
  }

  lemma RunSingleNoOperation(fuel: nat)
    requires fuel >= 2
    ensures var program := [Encode(NoOperation)];
            RunSpec(MemoryState(Address(0), program), fuel) == (Halted, MemoryState(Address(1), program))
  {
    RunThroughNoOperations(MemoryState(Address(0), [Encode(NoOperation)]), fuel);
  }

  lemma RunJumpOutsideProgram(fuel: nat)
    requires fuel >= 2
    ensures var program := [Encode(Jump(Address(100)))];
            RunSpec(MemoryState(Address(0), program), fuel) == (Halted, MemoryState(Address(100), program))
  {
    var program := [Encode(Jump(Address(100)))];
    assert Execute(MemoryState(Address(1), program), program[0]) == Ok(MemoryState(Address(100), program));
  }

  lemma RunSetsData(fuel: nat)
    requires fuel >= 2
    ensures var program := [Encode(MoveIntegerUnsigned(UnsignedInteger(123), Address(0)))];
            RunSpec(MemoryState(Address(0), program), fuel)
              == (Halted, MemoryState(Address(1), [NewLine(123, 0, 0, 0)]))
  {
    var program := [Encode(MoveIntegerUnsigned(UnsignedInteger(123), Address(0)))];
    assert Stored(program, 0, NewLine(123, 0, 0, 0)) == [NewLine(123, 0, 0, 0)];
    assert Execute(MemoryState(Address(1), program), program[0])
        == Ok(MemoryState(Address(1), [NewLine(123, 0, 0, 0)]));
  }

  /** Writing to line 5 of a one-line program grows memory to six lines;
      the five lines after the first all decode to `NoOperation`, so the
      run ends with the program counter at 6. */
  lemma RunSetsFutureMemory(fuel: nat)
    requires fuel >= 7
    ensures var program := [Encode(MoveIntegerUnsigned(UnsignedInteger(999), Address(5)))];
            RunSpec(MemoryState(Address(0), program), fuel)
              == (Halted, MemoryState(Address(6), program + [DefaultLine, DefaultLine, DefaultLine, DefaultLine,
                                                             NewLine(999, 0, 0, 0)]))
  {
    var program := [Encode(MoveIntegerUnsigned(UnsignedInteger(999), Address(5)))];
    var grown := program + [DefaultLine, DefaultLine, DefaultLine, DefaultLine, NewLine(999, 0, 0, 0)];
    assert Stored(program, 5, NewLine(999, 0, 0, 0)) == grown;
    var s1 := MemoryState(Address(1), grown);
    assert Execute(MemoryState(Address(1), program), program[0]) == Ok(s1);
    forall i | 1 <= i < 6
      ensures Decode(grown[i]) == NoOperation
    {
      assert grown[i][0] == 0 || grown[i][0] == 999;
    }
    RunThroughNoOperations(s1, fuel - 1);
  }

  lemma RunJumpIfNotEqualTaken(fuel: nat)
    requires fuel >= 2
    ensures var program := [Encode(JumpIfNotEqual(Address(1), Address(2), Address(4))),
                            NewLine(1000, 0, 0, 0), NewLine(1001, 0, 0, 0),
                            Encode(MoveIntegerUnsigned(UnsignedInteger(999), Address(0)))];
            RunSpec(MemoryState(Address(0), program), fuel) == (Halted, MemoryState(Address(4), program))
  {
    var program := [Encode(JumpIfNotEqual(Address(1), Address(2), Address(4))),
                    NewLine(1000, 0, 0, 0), NewLine(1001, 0, 0, 0),
                    Encode(MoveIntegerUnsigned(UnsignedInteger(999), Address(0)))];
    assert Execute(MemoryState(Address(1), program), program[0]) == Ok(MemoryState(Address(4), program));
  }

  lemma RunJumpIfNotEqualNotTaken(fuel: nat)
    requires fuel >= 5
    ensures var program := [Encode(JumpIfNotEqual(Address(1), Address(2), Address(4))),
                            NewLine(1000, 0, 0, 0), NewLine(1000, 0, 0, 0),
                            Encode(MoveIntegerUnsigned(UnsignedInteger(999), Address(0)))];
            RunSpec(MemoryState(Address(0), program), fuel)
              == (Halted, MemoryState(Address(4), program[0 := NewLine(999, 0, 0, 0)]))
  {
    var program := [Encode(JumpIfNotEqual(Address(1), Address(2), Address(4))),
                    NewLine(1000, 0, 0, 0), NewLine(1000, 0, 0, 0),
                    Encode(MoveIntegerUnsigned(UnsignedInteger(999), Address(0)))];
    var last := program[0 := NewLine(999, 0, 0, 0)];
    assert Execute(MemoryState(Address(1), program), program[0]) == Ok(MemoryState(Address(1), program));
    assert RunSpec(MemoryState(Address(0), program), fuel) == RunSpec(MemoryState(Address(1), program), fuel - 1);
    assert Execute(MemoryState(Address(2), program), program[1]) == Ok(MemoryState(Address(2), program));
    assert RunSpec(MemoryState(Address(1), program), fuel - 1) == RunSpec(MemoryState(Address(2), program), fuel - 2);
    assert Execute(MemoryState(Address(3), program), program[2]) == Ok(MemoryState(Address(3), program));
    assert RunSpec(MemoryState(Address(2), program), fuel - 2) == RunSpec(MemoryState(Address(3), program), fuel - 3);
    assert Stored(program, 0, NewLine(999, 0, 0, 0)) == last;
    assert Execute(MemoryState(Address(4), program), program[3]) == Ok(MemoryState(Address(4), last));
    assert RunSpec(MemoryState(Address(3), program), fuel - 3) == RunSpec(MemoryState(Address(4), last), fuel - 4);
  }

  class Machine {
    var memory: Memory

    /** `Machine::new`: an empty memory. */
    constructor ()
      ensures fresh(memory)
      ensures memory.State() == MemoryState(Address(0), [])
    {
      memory := new Memory.Default();
    }

    /** `load`: replace the memory with one built from `program`. */
    method Load(program: seq<Line>)
      modifies this
      ensures fresh(memory)
      ensures memory.State() == MemoryState(Address(0), program)
    {
      memory := new Memory.FromVec(program);
    }

    /** `with_program`: `new` followed by `load`. */
    constructor WithProgram(program: seq<Line>)
      ensures fresh(memory)
      ensures memory.State() == MemoryState(Address(0), program)
    {
      memory := new Memory.Default();
      new;
      Load(program);
    }

    /** `run_line`: dispatch on the decoded line. */
    method RunLine(line: Line) returns (outcome: Outcome<()>)
      modifies memory
      ensures outcome.Ok? ==> Execute(old(memory.State()), line) == Ok(memory.State())
      ensures outcome.Panicked? ==> Execute(old(memory.State()), line) == Panicked(outcome.reason)
      ensures outcome.Panicked? ==> memory.State() == old(memory.State())
    {
      outcome := Ok(());
      match Decode(line) {
        case NoOperation =>
        case Jump(address) =>
          memory.SetOffset(address);
        case JumpIfNotEqual(left, right, address) =>
          if memory.Get(left) != memory.Get(right) {
            memory.SetOffset(address);
          }
        case MoveIntegerUnsigned(n, address) =>
          memory.Set(address, NewLine(n.bits, 0, 0, 0));
        case _ =>
          outcome := Panicked(Unimplemented(line[0]));
      }
    }

    /** `run`: fetch and execute until `read_next` finds no line, bounded
        here by `fuel` executed lines. */
    method Run(fuel: nat) returns (result: RunResult)
      modifies memory
      ensures (result, memory.State()) == RunSpec(old(memory.State()), fuel)
      ensures result == Halted ==> memory.pc.bits >= |memory.lines|
    {
      RunHaltsPastEnd(memory.State(), fuel);
      var remaining: nat := fuel;
      while remaining > 0
        invariant remaining <= fuel
        invariant RunSpec(old(memory.State()), fuel) == RunSpec(memory.State(), remaining)
        decreases remaining
      {
        var fetched := memory.ReadNext();
        match fetched {
          case Exhausted =>
            return Halted;
          case PcOverflow =>
            return Faulted(ArithmeticOverflow);
          case Fetched(line) =>
            var outcome := RunLine(line);
            if outcome.Panicked? {
              return Faulted(outcome.reason);
            }
        }
        remaining := remaining - 1;
      }
      result := OutOfFuel;
    }
  }
}
