/** The logger's buffer: a vector with a write and a read position, on values and as an object. */
module AsyncBuffer {
  import opened Bytes

  /** The sizes from the configuration file. */
  datatype Config = Config(bufferSize: nat, threshold: nat, linearGrowth: nat)

  /** A buffer on values: the size of the vector, everything up to the write position, and the read position. */
  datatype Buf = Buf(size: nat, written: seq<byte>, read: nat) {
    ghost predicate Ok() { read <= |written| <= size }
    function Writeable(): int { size - |written| }
    ghost function Contents(): seq<byte>
      requires Ok()
    {
      written[read..]
    }
  }

  function Empty(cfg: Config): Buf { Buf(cfg.bufferSize, [], 0) }

  // ---------------------------------------------------------------- growth

  /** A `size_t` stored in an `int`, and any value stored in a `size_t`. */
  function AsInt(n: nat): int {
    var m := n % 0x1_0000_0000;
    if m < 0x8000_0000 then m else m - 0x1_0000_0000
  }

  function AsSize(n: int): nat { n % 0x1_0000_0000_0000_0000 }

  /** The new size that one growth computes. */
  function Grown(cfg: Config, size: nat): nat {
    if size < cfg.threshold then AsSize(2 * size + AsInt(size)) else AsSize(cfg.linearGrowth + AsInt(size))
  }

  /** Growth is decided by a full comparison: an exact fit grows too, and there is at most one growth. */
  function SizeFor(cfg: Config, b: Buf, len: nat): nat {
    if len >= b.Writeable() then Grown(cfg, b.size) else b.size
  }

  /** `vector<char>::max_size()`: what `ptrdiff_t` can span. */
  const MAX_VECTOR: nat := 0x7FFF_FFFF_FFFF_FFFF

  /** A push grows the vector, and the computed size is one that `resize` refuses with an exception. */
  predicate Throws(cfg: Config, b: Buf, len: nat) {
    len >= b.Writeable() && Grown(cfg, b.size) > MAX_VECTOR
  }

  /** A push copies its bytes past the end of the vector, which the one growth left too small. */
  predicate Overruns(cfg: Config, b: Buf, len: nat) {
    !Throws(cfg, b, len) && |b.written| + len > SizeFor(cfg, b, len)
  }

  /** The push goes well: no exception, and the bytes fit after the one growth that is tried. */
  predicate Fits(cfg: Config, b: Buf, len: nat) { !Throws(cfg, b, len) && !Overruns(cfg, b, len) }

  function PushTo(cfg: Config, b: Buf, bytes: seq<byte>): Buf {
    Buf(SizeFor(cfg, b, |bytes|), b.written + bytes, b.read)
  }

  lemma FitsIsOk(cfg: Config, b: Buf, bytes: seq<byte>)
    requires b.Ok() && Fits(cfg, b, |bytes|)
    ensures var d := PushTo(cfg, b, bytes); d.Ok() && d.written == b.written + bytes && d.read == b.read
  {
  }

  /** What one growth is meant to reach. */
  function Intended(cfg: Config, size: nat): nat {
    if size < cfg.threshold then 3 * size else cfg.linearGrowth + size
  }

  /** The size passes through the `int` unharmed, and the sum stays a `size_t`. */
  predicate Computable(cfg: Config, size: nat) {
    size < 0x8000_0000 && (size < cfg.threshold || cfg.linearGrowth + size < 0x1_0000_0000_0000_0000)
  }

  /** The computed size is the intended one for no vector of 2 GiB or more, and below that for all but
      absurd configurations: this holds of every vector and every configuration. */
  lemma GrowthIsExactIff(cfg: Config, size: nat)
    requires size <= MAX_VECTOR
    ensures Grown(cfg, size) == Intended(cfg, size) <==> Computable(cfg, size)
  {
    hide AsSize, AsInt;
    var base := if size < cfg.threshold then 2 * size else cfg.linearGrowth;
    ExactMeansSmall(base, size);
    assert Intended(cfg, size) == base + size;
  }

  lemma ExactMeansSmall(base: nat, size: nat)
    requires size <= MAX_VECTOR
    ensures AsSize(base + AsInt(size)) == base + size
      <==> size < 0x8000_0000 && base + size < 0x1_0000_0000_0000_0000
  {
    assert size - 0x8000_0000_0000_0000 <= AsInt(size) <= size;
  }

  /** A push no longer than twice the vector and the fixed growth always fits, whatever is in the buffer. */
  lemma OneGrowthIsEnough(cfg: Config, b: Buf, len: nat)
    requires b.Ok()
    requires len < b.Writeable()
      || (b.size < 0x8000_0000 && Intended(cfg, b.size) <= MAX_VECTOR && len <= 2 * b.size && len <= cfg.linearGrowth)
    ensures Fits(cfg, b, len) && b.size <= SizeFor(cfg, b, len) && PushTo(cfg, b, seq(len, _ => 0)).Ok()
  {
    if b.size < 0x8000_0000 { GrowthIsExactIff(cfg, b.size); }
  }

  /** Beyond that it need not: exactly the pushes that go well where the size is computed right. */
  lemma OneGrowthIsNotAlwaysEnough(cfg: Config, b: Buf, len: nat)
    requires b.Ok() && Computable(cfg, b.size) && len >= b.Writeable()
    ensures Fits(cfg, b, len) <==>
      && Intended(cfg, b.size) <= MAX_VECTOR
      && len <= b.Writeable() + if b.size < cfg.threshold then 2 * b.size else cfg.linearGrowth
  {
    GrowthIsExactIff(cfg, b.size);
  }

  /** From 2 GiB to 4 GiB, beyond the threshold and with less than 4 GiB of linear growth, every push that
      grows fails: it throws where the growth is too small to undo the overflow, and overruns otherwise. */
  lemma GrowthFailsFromTwoGiB(cfg: Config, b: Buf, len: nat)
    requires b.Ok() && len >= b.Writeable() && cfg.threshold <= b.size && 0x8000_0000 <= b.size < 0x1_0000_0000
    requires cfg.linearGrowth < 0x1_0000_0000
    ensures Throws(cfg, b, len) <==> cfg.linearGrowth + b.size < 0x1_0000_0000
    ensures Overruns(cfg, b, len) <==> cfg.linearGrowth + b.size >= 0x1_0000_0000
  {
    assert AsInt(b.size) == b.size - 0x1_0000_0000;
  }

  // ---------------------------------------------------------------- the object

  class Buffer {
    const cfg: Config
    var data: array<byte>
    var writePos: nat
    var readPos: nat

    ghost predicate Valid()
      reads this, data
    {
      readPos <= writePos <= data.Length
    }

    ghost function Abs(): (b: Buf)
      requires Valid()
      reads this, data
      ensures b.Ok()
    {
      Buf(data.Length, data[..writePos], readPos)
    }

    constructor (cfg: Config)
      ensures Valid() && fresh(data) && this.cfg == cfg && Abs() == Empty(cfg)
    {
      this.cfg := cfg;
      data := new byte[cfg.bufferSize](_ => 0);
      writePos, readPos := 0, 0;
    }

    /** `vector::resize`, which may also cut the vector short. */
    method Resize(size: nat)
      modifies this`data
      ensures fresh(data) && data.Length == size
      ensures forall i :: 0 <= i < size && i < old(data.Length) ==> data[i] == old(data[i])
    {
      var resized := new byte[size](_ => 0);
      var kept := if size < data.Length then size else data.Length;
      for i := 0 to kept
        invariant data == old(data) && fresh(resized)
        invariant forall k :: 0 <= k < i ==> resized[k] == data[k]
      {
        resized[i] := data[i];
      }
      data := resized;
    }

    /** At most one growth, to the computed size even where that is too small for what is written; a size
        that no vector can have makes `resize` throw and leaves everything as it was. */
    method ToBeEnough(len: nat) returns (threw: bool)
      requires Valid()
      modifies this`data
      ensures threw <==> Throws(cfg, old(Abs()), len)
      ensures threw ==> data == old(data)
      ensures !threw ==> (data == old(data) || fresh(data)) && data.Length == SizeFor(cfg, old(Abs()), len)
      ensures forall i :: 0 <= i < data.Length && i < old(data.Length) ==> data[i] == old(data[i])
      ensures !threw && writePos <= data.Length ==> Valid() && Abs() == old(Abs()).(size := data.Length)
    {
      threw := false;
      if len >= data.Length - writePos {
        if Grown(cfg, data.Length) > MAX_VECTOR {
          return true;
        }
        Resize(Grown(cfg, data.Length));
      }
    }

    /** `std::copy` behind the write position, which moves past the bytes. */
    method CopyIn(bytes: seq<byte>)
      requires Valid() && writePos + |bytes| <= data.Length
      modifies this`writePos, data
      ensures Valid() && Abs() == old(Abs()).(written := old(Abs()).written + bytes)
      ensures Abs().Contents() == old(Abs().Contents()) + bytes
    {
      ghost var before := data[..writePos];
      for i := 0 to |bytes|
        modifies data
        invariant data[..writePos + i] == before + bytes[..i]
      {
        data[writePos + i] := bytes[i];
      }
      writePos := writePos + |bytes|;
      assert (before + bytes)[readPos..] == before[readPos..] + bytes;
    }

    /** The bytes join the unread ones, or an exception leaves the buffer alone. The caller must not make
        the copy run past the vector. */
    method Push(bytes: seq<byte>) returns (threw: bool)
      requires Valid() && !Overruns(cfg, Abs(), |bytes|)
      modifies this, data
      ensures Valid() && (data == old(data) || fresh(data))
      ensures threw <==> Throws(cfg, old(Abs()), |bytes|)
      ensures threw ==> Abs() == old(Abs())
      ensures !threw ==> Abs() == PushTo(cfg, old(Abs()), bytes) && Abs().Contents() == old(Abs().Contents()) + bytes
    {
      hide Grown;
      threw := ToBeEnough(|bytes|);
      if !threw {
        CopyIn(bytes);
      }
    }

    predicate IsEmpty()
      reads this
    {
      writePos == readPos
    }

    /** Exchanges vectors and positions with another buffer. */
    method Swap(other: Buffer)
      requires Valid() && other.Valid()
      modifies this, other
      ensures Valid() && other.Valid() && {data, other.data} == old({data, other.data})
      ensures Abs() == old(other.Abs()) && other.Abs() == old(Abs())
    {
      data, other.data := other.data, data;
      readPos, other.readPos := other.readPos, readPos;
      writePos, other.writePos := other.writePos, writePos;
    }

    /** What the flush callback is given: `Begin()` and `ReadableSize()`. */
    method Readable() returns (bytes: seq<byte>)
      requires Valid()
      ensures bytes == Abs().Contents()
    {
      bytes := data[readPos..writePos];
    }

    method Reset()
      requires Valid()
      modifies this`writePos, this`readPos
      ensures Valid() && Abs() == Buf(data.Length, [], 0)
    {
      writePos, readPos := 0, 0;
    }
  }
}
