/** The line-addressed memory of the machine (src/machine/memory.rs): a
    program counter and a growable vector of lines. */
module LineMemory {

  import opened Wrappers
  import opened Types

  /** The abstract value of a `Memory`: what `#[derive(PartialEq)]`
      compares. */
  datatype MemoryState = MemoryState(pc: Address, lines: seq<Line>)

  /** What `read_next` produces. `PcOverflow` is the debug-build panic of
      `Address::incr` when the line at `u32::MAX` is fetched. */
  datatype Fetch = Fetched(line: Line) | Exhausted | PcOverflow

  /** `Vec::get` on the lines. */
  function Lookup(lines: seq<Line>, a: Address): Option<Line>
  {
    if a.bits < |lines| then Some(lines[a.bits]) else None
  }

  /** The lines after `set(a, line)`: grown with default lines to
      `a + 1` lines if shorter, then `line` written at `a`. */
  function Stored(lines: seq<Line>, a: u32, line: Line): (r: seq<Line>)
    ensures |r| == if a < |lines| then |lines| else a + 1
    ensures r[a] == line
    ensures forall i :: 0 <= i < |lines| && i != a ==> r[i] == lines[i]
    ensures forall i :: |lines| <= i < |r| && i != a ==> r[i] == DefaultLine
  {
    var grown := if a + 1 > |lines| then lines + seq(a + 1 - |lines|, _ => DefaultLine) else lines;
    grown[a := line]
  }

  /** The fetch `read_next` performs, and the state after it. */
  function NextLine(s: MemoryState): (r: (Fetch, MemoryState))
    ensures r.1.lines == s.lines
    ensures r.0.Exhausted? <==> s.pc.bits >= |s.lines|
    ensures r.0.Fetched? ==> r.0.line == s.lines[s.pc.bits] && r.1.pc.bits == s.pc.bits + 1
    ensures !r.0.Fetched? ==> r.1.pc == s.pc
    ensures r.0.PcOverflow? <==> s.pc.bits == U32_MAX && s.pc.bits < |s.lines|
  {
    match Lookup(s.lines, s.pc)
    case None => (Exhausted, s)
    case Some(line) =>
      if s.pc.bits < U32_MAX then (Fetched(line), s.(pc := s.pc.Incr())) else (PcOverflow, s)
  }

  class Memory {
    var pc: Address
    var lines: seq<Line>

    function State(): MemoryState
      reads this
    {
      MemoryState(pc, lines)
    }

    /** `Memory::default()`. */
    constructor Default()
      ensures pc == Address(0) && lines == []
    {
      pc := Address(0);
      lines := [];
    }

    /** `Memory::from_vec` and `From<Vec<Line>> for Memory`. */
    constructor FromVec(memory: seq<Line>)
      ensures pc == Address(0) && lines == memory
    {
      pc := Address(0);
      lines := memory;
    }

    /** `set_offset`: move the program counter, nothing else. */
    method SetOffset(address: Address)
      modifies this`pc
      ensures pc == address
      ensures lines == old(lines)
    {
      pc := address;
    }

    /** `with_offset`: the builder form of `set_offset`; it hands back the
        same memory. */
    method WithOffset(address: Address) returns (m: Memory)
      modifies this`pc
      ensures m == this
      ensures pc == address
      ensures lines == old(lines)
    {
      SetOffset(address);
      m := this;
    }

    /** `get`: a bounds-checked read that changes nothing. */
    function Get(address: Address): (r: Option<Line>)
      reads this
      ensures r.Some? <==> address.bits < |lines|
      ensures r.Some? ==> r.value == lines[address.bits]
    {
      Lookup(lines, address)
    }

    /** `read_next`: fetch the line at `pc` and step past it, or report
        that `pc` is past the end and stay put. */
    method ReadNext() returns (r: Fetch)
      modifies this`pc
      ensures (r, State()) == NextLine(old(State()))
      ensures lines == old(lines)
    {
      var line := Get(pc);
      if line.Some? {
        if pc.bits == U32_MAX {
          return PcOverflow;
        }
        pc := pc.Incr();
        r := Fetched(line.value);
      } else {
        r := Exhausted;
      }
    }

    /** `set`: grow with default lines to hold `address`, then write. */
    method Set(address: Address, line: Line)
      modifies this`lines
      ensures lines == Stored(old(lines), address.bits, line)
      ensures pc == old(pc)
      ensures |lines| >= |old(lines)|
    {
      var a := address.bits;
      if a + 1 > |lines| {
        lines := lines + seq(a + 1 - |lines|, _ => DefaultLine);
      }
      lines := lines[a := line];
    }
  }
}
