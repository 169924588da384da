/** The byte-addressed in-memory backend of the later design
    (src/memory/in_memory_memory.rs): a `usize` cursor over a growable
    byte vector, read and written through fixed-width values.

    The `ReadWriteable` trait that supplies those values is not part of
    this model. A `Codec` stands for one implementation of it: a byte
    width of at most 8 (the size of the buffer the file backend reads
    into) and an encoder and decoder that round-trip. */
module InMemory {

  import opened Wrappers
  import opened Types

  type i16 = x: int | -0x8000 <= x < 0x8000

  /** `usize::MAX + 1` on a 64-bit target. */
  const USIZE_LIMIT: int := 0x1_0000_0000_0000_0000

  /** One `ReadWriteable` type: `NUM_BYTES`, `into_bytes` and `from_bytes`. */
  datatype Codec<!T> = Codec(width: nat, encode: T -> seq<u8>, decode: seq<u8> -> T)

  /** What every `ReadWriteable` type is assumed to satisfy. */
  ghost predicate ValidCodec<T(!new)>(c: Codec<T>)
  {
    && c.width <= 8
    && (forall v :: |c.encode(v)| == c.width)
    && (forall v :: c.decode(c.encode(v)) == v)
  }

  /** A 4-byte little-endian unsigned integer, as one concrete codec. */
  function U32Codec(): Codec<u32>
  {
    var encode: u32 -> seq<u8> := WordBytes;
    var decode: seq<u8> -> u32 := b => if |b| == 4 then WordFromBytes(b) else 0;
    Codec(4, encode, decode)
  }

  lemma U32CodecValid()
    ensures ValidCodec(U32Codec())
  {
    var c := U32Codec();
    forall v: u32
      ensures c.decode(c.encode(v)) == v
    {
      assert |WordBytes(v)| == 4;
    }
  }

  /** The value stored at `pc`, if all of its bytes are present. */
  function Peek<T>(c: Codec<T>, buf: seq<u8>, pc: nat): Option<T>
  {
    if pc + c.width <= |buf| then Some(c.decode(buf[pc .. pc + c.width])) else None
  }

  /** The buffer after `write`: zero-extended to reach `pc + |bytes|`,
      then `bytes` copied in at `pc`. */
  function Written(buf: seq<u8>, pc: nat, bytes: seq<u8>): (r: seq<u8>)
    ensures |r| == if pc + |bytes| <= |buf| then |buf| else pc + |bytes|
    ensures r[pc .. pc + |bytes|] == bytes
    ensures forall i :: 0 <= i < |buf| && !(pc <= i < pc + |bytes|) ==> r[i] == buf[i]
    ensures forall i :: |buf| <= i < pc ==> r[i] == 0
  {
    var grown := if pc + |bytes| > |buf| then buf + seq(pc + |bytes| - |buf|, _ => 0) else buf;
    grown[..pc] + bytes + grown[pc + |bytes|..]
  }

  /** A value written at `pc` reads back from `pc`. */
  lemma WriteThenPeek<T(!new)>(c: Codec<T>, buf: seq<u8>, pc: nat, v: T)
    requires ValidCodec(c)
    ensures Peek(c, Written(buf, pc, c.encode(v)), pc) == Some(v)
  {
  }

  /** Writing leaves every value that does not overlap the written bytes
      readable as before. */
  lemma WriteKeepsDisjointValue<T(!new), U>(c: Codec<T>, d: Codec<U>, buf: seq<u8>, pc: nat, v: T, q: nat)
    requires ValidCodec(c)
    requires q + d.width <= pc || pc + c.width <= q
    requires q + d.width <= |buf|
    ensures Peek(d, Written(buf, pc, c.encode(v)), q) == Peek(d, buf, q)
  {
    var r := Written(buf, pc, c.encode(v));
    assert r[q .. q + d.width] == buf[q .. q + d.width];
  }

  /** `pc as i16`: the low 16 bits of the cursor read as a two's-complement
      number. */
  function SignedLow16(pc: nat): (s: i16)
    ensures s % 0x1_0000 == pc % 0x1_0000
  {
    var low := pc % 0x1_0000;
    if low < 0x8000 then low else low - 0x1_0000
  }

  /** The cursor `seek` computes: `(pc as i16 + pos) as usize`. An `i16`
      sum out of range is a debug-build overflow panic (`None`); a
      negative sum is sign-extended to a cursor just below
      `usize::MAX + 1`. The last two ensures pin the cursor down: it is
      the one value in the bottom or top 2^15 of the `usize` range that
      agrees with `pc + pos` modulo 2^16. */
  function SeekTarget(pc: nat, pos: i16): (r: Option<nat>)
    ensures r.None? <==> !(-0x8000 <= SignedLow16(pc) + pos < 0x8000)
    ensures r.Some? ==> r.value < 0x8000 || USIZE_LIMIT - 0x8000 <= r.value < USIZE_LIMIT
    ensures r.Some? ==> r.value % 0x1_0000 == (pc + pos) % 0x1_0000
  {
    var sum := SignedLow16(pc) + pos;
    if sum < -0x8000 || sum >= 0x8000 then None
    else if sum >= 0 then Some(sum)
    else Some(USIZE_LIMIT + sum)
  }

  /** Within the non-negative `i16` range, `seek` adds the displacement. */
  lemma SeekInRange(pc: nat, pos: i16)
    requires pc <= 0x7FFF && 0 <= pc + pos <= 0x7FFF
    ensures SeekTarget(pc, pos) == Some(pc + pos)
  {
  }

  /** Outside it, the cast of the cursor to `i16` loses its high bits:
      seeking by 0 from 65536 moves the cursor to 0, and seeking by 1
      from 32767 overflows. */
  lemma SeekTruncates()
    ensures SeekTarget(0x1_0000, 0) == Some(0)
    ensures SeekTarget(0x7FFF, 1) == None
    ensures SeekTarget(0, -1) == Some(USIZE_LIMIT - 1)
  {
  }

  class InMemoryMemory {
    var pc: nat
    var memory: seq<u8>

    /** `pc` is a `usize`, and a `Vec<u8>` is shorter than `usize::MAX`. */
    ghost predicate Valid()
      reads this
    {
      pc < USIZE_LIMIT && |memory| < USIZE_LIMIT
    }

    /** `InMemoryMemory::from_vec`. */
    constructor FromVec(memory: seq<u8>)
      requires |memory| < USIZE_LIMIT
      ensures Valid()
      ensures pc == 0 && this.memory == memory
    {
      pc := 0;
      this.memory := memory;
    }

    /** `read`: decode the value at the cursor and step past it. Slicing
        past the end of the vector panics. */
    method Read<T(!new)>(c: Codec<T>) returns (r: Outcome<T>)
      requires Valid() && ValidCodec(c)
      modifies this`pc
      ensures Valid()
      ensures memory == old(memory)
      ensures old(pc) + c.width >= USIZE_LIMIT ==> r == Panicked(ArithmeticOverflow)
      ensures old(pc) + c.width < USIZE_LIMIT && Peek(c, memory, old(pc)).None? ==> r == Panicked(IndexOutOfBounds)
      ensures Peek(c, memory, old(pc)).Some? ==> r == Ok(Peek(c, memory, old(pc)).value)
      ensures pc == if r.Ok? then old(pc) + c.width else old(pc)
    {
      if pc + c.width >= USIZE_LIMIT {
        return Panicked(ArithmeticOverflow);
      }
      if pc + c.width > |memory| {
        return Panicked(IndexOutOfBounds);
      }
      var buffer := memory[pc .. pc + c.width];
      pc := pc + c.width;
      r := Ok(c.decode(buffer));
    }

    /** `read_if_present`: like `read`, but `None` and no movement when the
        value does not fit before the end. */
    method ReadIfPresent<T(!new)>(c: Codec<T>) returns (r: Outcome<Option<T>>)
      requires Valid() && ValidCodec(c)
      modifies this`pc
      ensures Valid()
      ensures memory == old(memory)
      ensures old(pc) + c.width >= USIZE_LIMIT ==> r == Panicked(ArithmeticOverflow)
      ensures old(pc) + c.width < USIZE_LIMIT ==> r == Ok(Peek(c, memory, old(pc)))
      ensures pc == if r.Ok? && r.value.Some? then old(pc) + c.width else old(pc)
    {
      if pc + c.width >= USIZE_LIMIT {
        return Panicked(ArithmeticOverflow);
      }
      if pc + c.width > |memory| {
        return Ok(None);
      }
      var buffer := memory[pc .. pc + c.width];
      pc := pc + c.width;
      r := Ok(Some(c.decode(buffer)));
    }

    /** `write`: zero-extend the vector to hold the value, then encode it
        at the cursor. The cursor does not move and the `Err(())` path is
        never taken. */
    method Write<T(!new)>(c: Codec<T>, v: T) returns (r: Outcome<()>)
      requires Valid() && ValidCodec(c)
      modifies this`memory
      ensures Valid()
      ensures pc == old(pc)
      ensures old(pc) + c.width >= USIZE_LIMIT ==> r == Panicked(ArithmeticOverflow) && memory == old(memory)
      ensures old(pc) + c.width < USIZE_LIMIT ==> r == Ok(()) && memory == Written(old(memory), pc, c.encode(v))
    {
      if pc + c.width >= USIZE_LIMIT {
        return Panicked(ArithmeticOverflow);
      }
      if pc + c.width > |memory| {
        memory := memory + seq(pc + c.width - |memory|, _ => 0);
      }
      memory := memory[..pc] + c.encode(v) + memory[pc + c.width..];
      r := Ok(());
    }

    /** `seek`: move the cursor by a signed 16-bit displacement. */
    method Seek(pos: i16) returns (r: Outcome<()>)
      requires Valid()
      modifies this`pc
      ensures Valid()
      ensures memory == old(memory)
      ensures SeekTarget(old(pc), pos).None? ==> r == Panicked(ArithmeticOverflow) && pc == old(pc)
      ensures SeekTarget(old(pc), pos).Some? ==> r == Ok(()) && pc == SeekTarget(old(pc), pos).value
    {
      var low := pc % 0x1_0000;
      var signed := if low < 0x8000 then low else low - 0x1_0000;
      var sum := signed + pos;
      if sum < -0x8000 || sum >= 0x8000 {
        return Panicked(ArithmeticOverflow);
      }
      pc := if sum >= 0 then sum else USIZE_LIMIT + sum;
      r := Ok(());
    }
  }

  /** A `write` followed by a `read` at the same cursor returns the value
      written, and leaves the cursor just past it. */
  method WriteThenRead<T(!new)>(m: InMemoryMemory, c: Codec<T>, v: T) returns (r: Outcome<T>)
    requires m.Valid() && ValidCodec(c)
    requires m.pc + c.width < USIZE_LIMIT
    modifies m
    ensures r == Ok(v)
    ensures m.pc == old(m.pc) + c.width
  {
    var written := m.Write(c, v);
    WriteThenPeek(c, old(m.memory), m.pc, v);
    r := m.Read(c);
  }
}
