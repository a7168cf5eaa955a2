/** The network buffer: a compacting, growing array that behaves as a plain byte queue. */
module ByteBuffer {
  import opened Bytes
  import L = BufferLayout

  /** The outcome of `readv`: an error, or the bytes the kernel delivered. */
  datatype ReadResult = ReadError | ReadBytes(bytes: seq<byte>)

  class Buffer {
    var data: array<byte>
    var reader: nat
    var writer: nat

    ghost function Layout(): L.Layout
      reads this, data
    {
      L.Layout(data.Length, reader, writer)
    }

    ghost predicate Valid()
      reads this, data
    {
      Layout().WellFormed()
    }

    /** The abstract queue: the unread bytes, oldest first. */
    ghost function Contents(): seq<byte>
      requires Valid()
      reads this, data
    {
      data[reader..writer]
    }

    constructor ()
      ensures Valid() && fresh(data)
      ensures Layout() == L.EMPTY && Contents() == []
    {
      data := new byte[L.CHEAP_PREPEND + L.INIT_SIZE](_ => 0);
      reader := L.CHEAP_PREPEND;
      writer := L.CHEAP_PREPEND;
    }

    function ReadableBytes(): (n: int)
      requires Valid()
      reads this, data
      ensures n == |Contents()|
    {
      writer - reader
    }

    /** `vector::resize` to a larger size: old bytes kept, new bytes zero. */
    method Resize(size: nat)
      requires data.Length <= size
      modifies this`data
      ensures fresh(data) && data.Length == size
      ensures data[..old(data.Length)] == old(data[..])
    {
      var bigger := new byte[size](_ => 0);
      for i := 0 to data.Length
        invariant data == old(data) && fresh(bigger)
        invariant bigger[..i] == data[..i]
      {
        bigger[i] := data[i];
      }
      data := bigger;
    }

    /** `std::copy` within the vector; the target may overlap the source only from below. */
    method CopyWithin(first: nat, last: nat, target: nat)
      requires first <= last <= data.Length && target + (last - first) <= data.Length
      requires !(first <= target < last)
      modifies data
      ensures data[target..target + (last - first)] == old(data[first..last])
    {
      for k := 0 to last - first
        invariant data[target..target + k] == old(data[first..first + k])
        invariant forall i :: 0 <= i < data.Length && !(target <= i < target + k) ==> data[i] == old(data[i])
      {
        data[target + k] := data[first + k];
      }
    }

    /** `std::copy` from outside into the vector. */
    method CopyIn(bytes: seq<byte>, target: nat)
      requires target + |bytes| <= data.Length
      modifies data
      ensures data[target..target + |bytes|] == bytes
      ensures data[..target] == old(data[..target])
      ensures data[target + |bytes|..] == old(data[target + |bytes|..])
    {
      for k := 0 to |bytes|
        invariant data[target..target + k] == bytes[..k]
        invariant forall i :: 0 <= i < data.Length && !(target <= i < target + k) ==> data[i] == old(data[i])
      {
        data[target + k] := bytes[k];
      }
    }

    method MakeSpace(len: nat)
      requires Valid() && data.Length - writer < len
      modifies this, data
      ensures Valid() && (data == old(data) || fresh(data))
      ensures Layout() == L.MakeSpace(old(Layout()), len)
      ensures Contents() == old(Contents()) && len <= data.Length - writer
    {
      L.CompactionIsForward(Layout(), len);
      if data.Length - writer + reader < len + L.CHEAP_PREPEND {
        Resize(writer + len);
        assert data[reader..writer] == data[..old(data.Length)][reader..writer];
      } else {
        var readable := writer - reader;
        CopyWithin(reader, writer, L.CHEAP_PREPEND);
        reader := L.CHEAP_PREPEND;
        writer := reader + readable;
      }
    }

    method EnsureWritableBytes(len: nat)
      requires Valid()
      modifies this, data
      ensures Valid() && (data == old(data) || fresh(data))
      ensures Layout() == L.EnsureWritable(old(Layout()), len)
      ensures Contents() == old(Contents()) && len <= data.Length - writer
    {
      if data.Length - writer < len {
        MakeSpace(len);
      }
    }

    /** Bytes written behind the writer index join the queue when the index moves past them. */
    method FillInPlace(bytes: seq<byte>)
      requires Valid() && writer + |bytes| <= data.Length
      modifies this`writer, data
      ensures Valid() && writer == old(writer) + |bytes|
      ensures Contents() == old(Contents()) + bytes
    {
      ghost var unread := Contents();
      CopyIn(bytes, writer);
      assert data[reader..writer] == data[..writer][reader..] == unread;
      writer := writer + |bytes|;
      assert Contents() == data[reader..old(writer)] + data[old(writer)..writer];
    }

    method Append(bytes: seq<byte>)
      requires Valid()
      modifies this, data
      ensures Valid() && (data == old(data) || fresh(data))
      ensures Layout() == L.Append(old(Layout()), |bytes|)
      ensures Contents() == old(Contents()) + bytes
    {
      EnsureWritableBytes(|bytes|);
      FillInPlace(bytes);
    }

    method RetrieveAll()
      requires Valid()
      modifies this
      ensures Valid() && data == old(data)
      ensures Layout() == L.Layout(data.Length, L.CHEAP_PREPEND, L.CHEAP_PREPEND)
      ensures Contents() == []
    {
      reader := L.CHEAP_PREPEND;
      writer := L.CHEAP_PREPEND;
    }

    /** Drops the `len` oldest bytes, or everything when there are not that many. */
    method Retrieve(len: nat)
      requires Valid()
      modifies this
      ensures Valid() && data == old(data)
      ensures Layout() == L.Retrieve(old(Layout()), len)
      ensures Contents() == if len < |old(Contents())| then old(Contents())[len..] else []
    {
      if len < writer - reader {
        reader := reader + len;
      } else {
        RetrieveAll();
      }
    }

    /** The caller must stay inside the vector; asking for at most what is unread yields queue bytes. */
    method RetrieveAsString(len: nat) returns (result: seq<byte>)
      requires Valid() && reader + len <= data.Length
      modifies this
      ensures Valid() && data == old(data)
      ensures |result| == len
      ensures len <= |old(Contents())| ==> result == old(Contents())[..len] && Contents() == old(Contents())[len..]
      ensures |old(Contents())| < len ==> old(Contents()) <= result && Contents() == []
    {
      result := data[reader..reader + len];
      ghost var unread := Contents();
      assert len <= |unread| ==> result == unread[..len];
      assert |unread| < len ==> unread == result[..|unread|];
      Retrieve(len);
      assert len == |unread| ==> unread[len..] == [];
    }

    method RetrieveAllAsString() returns (result: seq<byte>)
      requires Valid()
      modifies this
      ensures Valid() && data == old(data)
      ensures result == old(Contents()) && Contents() == []
    {
      result := RetrieveAsString(writer - reader);
    }

    /**
     Scatter read into the writable space and, when that is smaller than the stack area, into the
     stack area. The kernel fills the first block before the second.
     */
    method ReadFd(kernel: ReadResult) returns (n: int)
      requires Valid()
      requires kernel.ReadBytes? ==> |kernel.bytes| <= L.Offered(Layout())
      modifies this, data
      ensures Valid() && (data == old(data) || fresh(data))
      ensures kernel.ReadError? ==> n == -1 && Layout() == old(Layout()) && Contents() == old(Contents())
      ensures kernel.ReadBytes? ==>
        && n == |kernel.bytes|
        && Layout() == L.ReadFd(old(Layout()), n)
        && Contents() == old(Contents()) + kernel.bytes
    {
      var writable := data.Length - writer;
      match kernel
      case ReadError =>
        n := -1;
      case ReadBytes(bytes) =>
        n := |bytes|;
        if n <= writable {
          FillInPlace(bytes);
        } else {
          var extrabuf := bytes[writable..];
          FillInPlace(bytes[..writable]);
          Append(extrabuf);
          assert bytes[..writable] + extrabuf == bytes;
        }
    }

    /** Offers all unread bytes to the kernel, which takes the first `n` of them or fails (`n == -1`). */
    method WriteFd(n: int) returns (taken: seq<byte>)
      requires Valid() && -1 <= n <= |Contents()|
      ensures taken == if n < 0 then [] else Contents()[..n]
    {
      taken := if n < 0 then [] else data[reader..reader + n];
    }
  }
}
