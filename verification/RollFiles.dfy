/**
 Rolling log files. `Roll` is the sink on values: each file is the list of chunks written to it, files
 in order of creation. `RollFileFlush` is the object, with file names and byte contents.
 */
module RollFiles {
  import opened Bytes
  import Decimal

  /** A file that has been opened, as the chunks appended since. */
  type File = seq<seq<byte>>

  function Size(f: File): nat {
    if f == [] then 0 else Size(f[..|f| - 1]) + |f[|f| - 1]|
  }

  lemma {:induction false} SizeIsLength(f: File)
    ensures Size(f) == |Flatten(f)|
  {
    if f != [] { SizeIsLength(f[..|f| - 1]); }
  }

  /** Rolls over when there is no file yet or the current one has reached the limit; a chunk is never split. */
  function FlushChunk(files: seq<File>, max: nat, chunk: seq<byte>): seq<File> {
    if files == [] || Size(files[|files| - 1]) >= max then files + [[chunk]]
    else files[|files| - 1 := files[|files| - 1] + [chunk]]
  }

  function FlushAll(max: nat, chunks: seq<seq<byte>>): seq<File> {
    if chunks == [] then [] else FlushChunk(FlushAll(max, chunks[..|chunks| - 1]), max, chunks[|chunks| - 1])
  }

  /** Every file but the last has reached the limit, and none had reached it before its last chunk. */
  ghost predicate RolledAt(files: seq<File>, max: nat) {
    && (forall i :: 0 <= i < |files| ==> files[i] != [] && Size(files[i][..|files[i]| - 1]) < max)
    && (forall i :: 0 <= i < |files| - 1 ==> Size(files[i]) >= max)
  }

  lemma FlushKeepsOrder(files: seq<File>, max: nat, chunk: seq<byte>)
    ensures Flatten(FlushChunk(files, max, chunk)) == Flatten(files) + [chunk]
  {
    var after := FlushChunk(files, max, chunk);
    var last := |files| - 1;
    if files == [] || Size(files[last]) >= max {
      assert after[..|after| - 1] == files;
    } else {
      assert after[..|after| - 1] == files[..last];
      assert Flatten(files[..last]) + (files[last] + [chunk]) == Flatten(files[..last]) + files[last] + [chunk];
    }
  }

  lemma FlushKeepsRolling(files: seq<File>, max: nat, chunk: seq<byte>)
    requires RolledAt(files, max) && max > 0
    ensures RolledAt(FlushChunk(files, max, chunk), max)
  {
    var after := FlushChunk(files, max, chunk);
    var last := |after| - 1;
    forall i | 0 <= i < |after| ensures after[i] != [] && Size(after[i][..|after[i]| - 1]) < max {
      if i < last {
        assert after[i] == files[i];
      } else if files == [] || Size(files[|files| - 1]) >= max {
        assert after[i][..|after[i]| - 1] == [];
      } else {
        assert after[i][..|after[i]| - 1] == files[i];
      }
    }
  }

  lemma FlushAllSnoc(max: nat, chunks: seq<seq<byte>>, chunk: seq<byte>)
    ensures FlushAll(max, chunks + [chunk]) == FlushChunk(FlushAll(max, chunks), max, chunk)
  {
    assert (chunks + [chunk])[..|chunks|] == chunks;
  }

  /** Over every sequence of flushes the files in order hold the chunks in order, each chunk whole, so
      that their bytes are the flushed stream. */
  lemma {:induction false} FilesHoldTheStream(max: nat, chunks: seq<seq<byte>>)
    ensures Flatten(FlushAll(max, chunks)) == chunks
  {
    if chunks != [] {
      var init, last := chunks[..|chunks| - 1], chunks[|chunks| - 1];
      FilesHoldTheStream(max, init);
      FlushKeepsOrder(FlushAll(max, init), max, last);
      hide Flatten, FlushAll;
      FlushAllSnoc(max, init, last);
      assert chunks == init + [last];
    }
  }

  /** With a positive limit every closed file has reached it, and none had before its last chunk. */
  lemma {:induction false} FilesRollAtTheLimit(max: nat, chunks: seq<seq<byte>>)
    requires max > 0
    ensures RolledAt(FlushAll(max, chunks), max)
  {
    if chunks != [] {
      var init, last := chunks[..|chunks| - 1], chunks[|chunks| - 1];
      FilesRollAtTheLimit(max, init);
      hide RolledAt;
      FlushKeepsRolling(FlushAll(max, init), max, last);
    }
  }

  /** A limit of zero starts a file for every chunk, so the bound fails from the first flush on. */
  lemma {:induction false} ZeroLimitRollsAlways(chunks: seq<seq<byte>>)
    ensures RolledAt(FlushAll(0, chunks), 0) <==> chunks == []
    ensures |FlushAll(0, chunks)| == |chunks|
  {
    if chunks != [] {
      ZeroLimitRollsAlways(chunks[..|chunks| - 1]);
      var files := FlushAll(0, chunks);
      assert !(Size(files[0][..if files[0] == [] then 0 else |files[0]| - 1]) < 0);
    }
  }

  // ---------------------------------------------------------------- file names

  /** The broken-down local time of a file's creation. */
  datatype Stamp = Stamp(year: nat, mon: nat, mday: nat, hour: nat, min: nat, sec: nat)

  function StampText(t: Stamp): string {
    Decimal.ToString(t.year + 1900) + Decimal.ToString(t.mon + 1) + Decimal.ToString(t.mday)
    + Decimal.ToString(t.hour) + Decimal.ToString(t.min) + Decimal.ToString(t.sec)
  }

  function Filename(basename: string, t: Stamp, cnt: nat): string {
    (basename + "_" + StampText(t)) + ("-" + Decimal.ToString(cnt) + ".log")
  }

  lemma SomeNumerals()
    ensures Decimal.ToString(1) == "1" && Decimal.ToString(5) == "5" && Decimal.ToString(7) == "7"
    ensures Decimal.ToString(9) == "9" && Decimal.ToString(23) == "23" && Decimal.ToString(48) == "48"
    ensures Decimal.ToString(1900) == "1900"
  {
    assert Decimal.ToString(2) == "2" && Decimal.ToString(4) == "4" && Decimal.ToString(1) == "1";
    assert Decimal.ToString(19) == "19";
    assert Decimal.ToString(190) == "190";
  }

  /** The parts of a name, on an example: nothing is padded. */
  lemma NameOfAnExample()
    ensures Filename("app", Stamp(0, 0, 5, 23, 9, 48), 7) == "app_19001523948-7.log"
  {
    hide Decimal.ToString;
    SomeNumerals();
  }

  /** So the time alone does not tell files apart: 11 January and 1 November read the same in every year. */
  lemma StampsCollide(t: Stamp)
    ensures StampText(t.(mon := 0, mday := 11)) == StampText(t.(mon := 10, mday := 1))
  {
    assert Decimal.ToString(1) == "1";
    assert Decimal.ToString(11) == "11";
    assert "1" + "11" == "11" + "1";
    var y, rest := Decimal.ToString(t.year + 1900), Decimal.ToString(t.hour) + Decimal.ToString(t.min) + Decimal.ToString(t.sec);
    assert StampText(t.(mon := 0, mday := 11)) == y + ("1" + "11") + rest;
    assert StampText(t.(mon := 10, mday := 1)) == y + ("11" + "1") + rest;
  }

  lemma SuffixesAgree<T>(p: seq<T>, s: seq<T>, q: seq<T>, t: seq<T>)
    requires p + s == q + t && |s| == |t|
    ensures s == t
  {
    assert (p + s)[|p|..] == s && (q + t)[|q|..] == t;
  }

  lemma DashAt(p: string, d: string)
    ensures var x := p + ("-" + d + ".log"); x[|x| - 5 - |d|] == '-'
  {
  }

  lemma DigitAt(p: string, d: string, k: nat)
    requires k < |d|
    ensures var x := p + ("-" + d + ".log"); x[|x| - 5 - k] == d[|d| - 1 - k]
  {
  }

  /** The last dash of a name comes just before the counter's digits. */
  lemma DashPosition(p: string, d: string, q: string, e: string)
    requires p + ("-" + d + ".log") == q + ("-" + e + ".log") && forall c <- d :: '0' <= c <= '9'
    ensures |d| <= |e|
  {
    if |e| < |d| {
      assert d[|d| - 1 - |e|] in d;
      DigitAt(p, d, |e|);
      DashAt(q, e);
    }
  }

  /** The counter in the name keeps names apart, whatever the clock says. */
  lemma NamesAreDistinct(basename: string, t: Stamp, u: Stamp, m: nat, n: nat)
    requires m != n
    ensures Filename(basename, t, m) != Filename(basename, u, n)
  {
    if Filename(basename, t, m) == Filename(basename, u, n) {
      var p, q := basename + "_" + StampText(t), basename + "_" + StampText(u);
      var d, e := Decimal.ToString(m), Decimal.ToString(n);
      DashPosition(p, d, q, e);
      DashPosition(q, e, p, d);
      SuffixesAgree(p, "-" + d + ".log", q, "-" + e + ".log");
      assert ("-" + d + ".log")[1..|d| + 1] == d && ("-" + e + ".log")[1..|e| + 1] == e;
      Decimal.ToStringIsInjective(m, n);
    }
  }

  // ---------------------------------------------------------------- what is on disk

  /** The disk holds `files` under `names`, each behind whatever its name held before, and nothing else
      has changed since `initial`. Names can be of any kind. */
  ghost predicate Holds<K>(disk: map<K, seq<byte>>, initial: map<K, seq<byte>>, names: seq<K>, files: seq<File>) {
    && |names| == |files|
    && (forall i, j :: 0 <= i < j < |names| ==> names[i] != names[j])
    && (forall i :: 0 <= i < |names| ==> Stored(disk, initial, names[i], files[i]))
    && Untouched(disk, initial, names)
  }

  ghost predicate Stored<K>(disk: map<K, seq<byte>>, initial: map<K, seq<byte>>, name: K, file: File) {
    name in disk && disk[name] == Before(initial, name) + Flatten(file)
  }

  ghost predicate Untouched<K>(disk: map<K, seq<byte>>, initial: map<K, seq<byte>>, names: seq<K>) {
    && (forall n :: n in initial && n !in names ==> n in disk && disk[n] == initial[n])
    && (forall n :: n in disk && n !in names ==> n in initial)
  }

  ghost function Before<K>(initial: map<K, seq<byte>>, name: K): seq<byte> {
    if name in initial then initial[name] else []
  }

  lemma OpenHolds<K>(disk: map<K, seq<byte>>, initial: map<K, seq<byte>>, names: seq<K>, files: seq<File>, name: K)
    requires Holds(disk, initial, names, files) && name !in names
    ensures Holds(if name in disk then disk else disk[name := []], initial, names + [name], files + [[]])
  {
    hide Stored;
    var after := if name in disk then disk else disk[name := []];
    var known, filled := names + [name], files + [[]];
    assert forall n :: n in known <==> n in names || n == name;
    assert Untouched(after, initial, known);
    OpenStores(disk, initial, name);
    hide Untouched, Flatten;
    forall i | 0 <= i < |known| ensures Stored(after, initial, known[i], filled[i]) {
      if i < |names| && name !in disk {
        WriteElsewhere(disk, initial, names[i], files[i], name, []);
      }
    }
  }

  lemma OpenStores<K>(disk: map<K, seq<byte>>, initial: map<K, seq<byte>>, name: K)
    requires name in disk ==> name in initial && disk[name] == initial[name]
    requires name in initial ==> name in disk
    ensures Stored(if name in disk then disk else disk[name := []], initial, name, [])
  {
  }

  lemma WriteStores<K>(
      disk: map<K, seq<byte>>, initial: map<K, seq<byte>>, name: K, file: File, chunk: seq<byte>)
    requires Stored(disk, initial, name, file)
    ensures Stored(disk[name := disk[name] + chunk], initial, name, file + [chunk])
  {
    AppendToFile(file, chunk);
    hide Flatten, Size;
    assert disk[name] + chunk == Before(initial, name) + (Flatten(file) + chunk);
  }

  lemma WriteElsewhere<K>(
      disk: map<K, seq<byte>>, initial: map<K, seq<byte>>, name: K, file: File, other: K, bytes: seq<byte>)
    requires Stored(disk, initial, name, file) && other != name
    ensures Stored(disk[other := bytes], initial, name, file)
  {
    hide Flatten, Size;
  }

  lemma WriteHolds<K>(
      disk: map<K, seq<byte>>, initial: map<K, seq<byte>>, names: seq<K>, files: seq<File>, chunk: seq<byte>)
    requires Holds(disk, initial, names, files) && names != []
    ensures var last := |names| - 1; var name := names[last];
      name in disk && Holds(disk[name := disk[name] + chunk], initial, names, files[last := files[last] + [chunk]])
  {
    hide Flatten, Size, Before;
    var last := |names| - 1;
    var name := names[last];
    assert Stored(disk, initial, name, files[last]);
    var after := disk[name := disk[name] + chunk];
    var filled := files[last := files[last] + [chunk]];
    assert Untouched(after, initial, names);
    hide Stored, Untouched;
    forall i | 0 <= i < |names| ensures Stored(after, initial, names[i], filled[i]) {
      if i < last {
        WriteElsewhere(disk, initial, names[i], files[i], name, disk[name] + chunk);
      } else {
        WriteStores(disk, initial, name, files[last], chunk);
      }
    }
  }

  lemma AppendToFile(f: File, chunk: seq<byte>)
    ensures Size(f + [chunk]) == Size(f) + |chunk| && Flatten(f + [chunk]) == Flatten(f) + chunk
  {
    assert (f + [chunk])[..|f|] == f;
  }

  /** The bytes under `names`, in order. */
  ghost function OnDisk<K>(disk: map<K, seq<byte>>, names: seq<K>): seq<byte> {
    if names == [] then [] else OnDisk(disk, names[..|names| - 1]) + Before(disk, names[|names| - 1])
  }

  lemma {:induction false} FreshFilesAreTheStream<K>(
      disk: map<K, seq<byte>>, initial: map<K, seq<byte>>, names: seq<K>, files: seq<File>)
    requires |names| == |files| && forall i :: 0 <= i < |names| ==> Stored(disk, initial, names[i], files[i])
    requires forall n <- names :: n !in initial
    ensures OnDisk(disk, names) == Flatten(Flatten(files))
  {
    if names != [] {
      var last := |names| - 1;
      FreshFilesAreTheStream(disk, initial, names[..last], files[..last]);
      FlattenConcat(Flatten(files[..last]), files[last]);
      hide Flatten;
      assert Stored(disk, initial, names[last], files[last]) && names[last] in names;
      assert [] + Flatten(files[last]) == Flatten(files[last]);
      assert Flatten(files) == Flatten(files[..last]) + files[last] by { FlattenLast(files); }
    }
  }

  lemma FlattenLast<T>(chunks: seq<seq<T>>)
    requires chunks != []
    ensures Flatten(chunks) == Flatten(chunks[..|chunks| - 1]) + chunks[|chunks| - 1]
  {
  }

  // ---------------------------------------------------------------- the object

  class RollFileFlush {
    const basename: string
    const maxSize: nat
    var cnt: nat
    var curSize: nat
    /** The open file, if any, and all files opened so far. */
    var open: bool
    var names: seq<string>
    var disk: map<string, seq<byte>>
    /** What was on disk at the start, when each file was opened, and what went where. */
    ghost var initial: map<string, seq<byte>>
    ghost var stamps: seq<Stamp>
    ghost var chunks: seq<seq<byte>>

    ghost predicate Stores(files: seq<File>)
      reads this
    {
      && cnt == |names| == |stamps| == |files| && (open <==> names != [])
      && (open ==> curSize == Size(files[|files| - 1]))
      && (forall i :: 0 <= i < |names| ==> names[i] == Filename(basename, stamps[i], i + 1))
      && Holds(disk, initial, names, files)
    }

    ghost predicate Valid()
      reads this
    {
      Stores(FlushAll(maxSize, chunks))
    }

    constructor (basename: string, maxSize: nat, disk: map<string, seq<byte>>)
      ensures Valid() && chunks == [] && initial == disk && this.maxSize == maxSize && this.basename == basename
    {
      this.basename, this.maxSize, this.disk := basename, maxSize, disk;
      cnt, curSize, open, names := 0, 0, false, [];
      initial, stamps, chunks := disk, [], [];
    }

    /** `fopen` in append mode creates the file or keeps what it holds. */
    method OpenNext(t: Stamp, ghost files: seq<File>)
      requires Stores(files)
      modifies this`cnt, this`curSize, this`open, this`names, this`disk, this`stamps
      ensures Stores(files + [[]]) && stamps == old(stamps) + [t]
    {
      hide Holds, Filename;
      cnt := cnt + 1;
      var filename := CreateFilename(t);
      if filename in names {
        ghost var i :| 0 <= i < |names| && names[i] == filename;
        NamesAreDistinct(basename, stamps[i], t, i + 1, cnt);
      }
      OpenHolds(disk, initial, names, files, filename);
      if filename !in disk {
        disk := disk[filename := []];
      }
      open, curSize := true, 0;
      names := names + [filename];
      stamps := stamps + [t];
    }

    function CreateFilename(t: Stamp): string
      reads this
    {
      Filename(basename, t, cnt)
    }

    /** `fwrite` to the open file. */
    method Write(chunk: seq<byte>, ghost files: seq<File>)
      requires Stores(files) && open
      modifies this`curSize, this`disk
      ensures Stores(files[|files| - 1 := files[|files| - 1] + [chunk]])
    {
      hide Holds, Size, Filename, Flatten;
      AppendToFile(files[|files| - 1], chunk);
      WriteHolds(disk, initial, names, files, chunk);
      var name := names[|names| - 1];
      disk := disk[name := disk[name] + chunk];
      curSize := curSize + |chunk|;
    }

    /** Appends one chunk whole, to the current file or to a new one. */
    method Flush(chunk: seq<byte>, now: Stamp)
      requires Valid()
      modifies this
      ensures Valid() && chunks == old(chunks) + [chunk] && initial == old(initial)
    {
      hide FlushAll, Holds, Filename, Size, Flatten;
      FlushAllSnoc(maxSize, chunks, chunk);
      ghost var files := FlushAll(maxSize, chunks);
      if !open || curSize >= maxSize {
        OpenNext(now, files);
        assert [] + [chunk] == [chunk];
        assert files + [[chunk]] == (files + [[]])[|files| := [] + [chunk]];
        files := files + [[]];
      }
      Write(chunk, files);
      chunks := chunks + [chunk];
    }

    /** On fresh names, the files in order of creation hold exactly the flushed stream, and the names are
        pairwise distinct. */
    lemma DiskHoldsTheStream()
      requires Valid() && forall n <- names :: n !in initial
      ensures OnDisk(disk, names) == Flatten(chunks)
      ensures forall i, j :: 0 <= i < j < |names| ==> names[i] != names[j]
    {
      hide Flatten, FlushAll, Size, Filename;
      FreshFilesAreTheStream(disk, initial, names, FlushAll(maxSize, chunks));
      FilesHoldTheStream(maxSize, chunks);
    }
  }
}
