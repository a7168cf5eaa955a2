/**
 How the network buffer places its two indices in the backing vector. A layout is what is left of a
 buffer when its bytes are forgotten; `Buffer` proves that its methods move the indices exactly so.
 */
module BufferLayout {

  const CHEAP_PREPEND := 8
  const INIT_SIZE := 1024
  /** The stack area that `readFd` offers to the kernel behind the writable space. */
  const EXTRA_SIZE := 65536

  datatype Layout = Layout(size: nat, reader: nat, writer: nat) {
    /** A drained buffer is always reset, so a reader beyond the prepend area means unread bytes. */
    ghost predicate WellFormed() {
      && CHEAP_PREPEND <= reader <= writer <= size
      && (CHEAP_PREPEND < reader ==> reader < writer)
    }
    function Readable(): int { writer - reader }
    function Writable(): int { size - writer }
  }

  const EMPTY := Layout(CHEAP_PREPEND + INIT_SIZE, CHEAP_PREPEND, CHEAP_PREPEND)

  function MakeSpace(l: Layout, len: nat): Layout
    requires l.WellFormed()
  {
    if l.Writable() + l.reader < len + CHEAP_PREPEND then
      l.(size := l.writer + len)
    else
      l.(reader := CHEAP_PREPEND, writer := CHEAP_PREPEND + l.Readable())
  }

  function EnsureWritable(l: Layout, len: nat): Layout
    requires l.WellFormed()
  {
    if l.Writable() < len then MakeSpace(l, len) else l
  }

  function Append(l: Layout, len: nat): Layout
    requires l.WellFormed()
  {
    var m := EnsureWritable(l, len);
    m.(writer := m.writer + len)
  }

  function Retrieve(l: Layout, len: nat): Layout {
    if len < l.Readable() then l.(reader := l.reader + len)
    else l.(reader := CHEAP_PREPEND, writer := CHEAP_PREPEND)
  }

  /** The space `readFd` offers: one block, or two when the first is smaller than the stack area. */
  function Offered(l: Layout): int {
    l.Writable() + if l.Writable() < EXTRA_SIZE then EXTRA_SIZE else 0
  }

  /** `readFd` after the kernel delivered `n` bytes. */
  function ReadFd(l: Layout, n: nat): Layout
    requires l.WellFormed()
  {
    if n <= l.Writable() then l.(writer := l.writer + n)
    else Append(l.(writer := l.size), n - l.Writable())
  }

  datatype Op = AppendOp(len: nat) | RetrieveOp(len: nat) | ReadFdOp(n: nat)

  function Apply(l: Layout, op: Op): (m: Layout)
    requires l.WellFormed()
    ensures m.WellFormed()
  {
    match op
    case AppendOp(len) => Append(l, len)
    case RetrieveOp(len) => Retrieve(l, len)
    case ReadFdOp(n) => ReadFd(l, n)
  }

  /** What the kernel guarantees of one call: it never delivers more than was offered. */
  ghost predicate Allowed(l: Layout, op: Op) {
    op.ReadFdOp? ==> op.n <= Offered(l)
  }

  /** `run` is a legal sequence of calls from `l` along which at most `bound` bytes are ever unread. */
  ghost predicate RunWithin(l: Layout, run: seq<Op>, bound: int)
    requires l.WellFormed()
    decreases |run|
  {
    l.Readable() <= bound &&
    (run != [] ==> Allowed(l, run[0]) && RunWithin(Apply(l, run[0]), run[1..], bound))
  }

  function After(l: Layout, run: seq<Op>): (m: Layout)
    requires l.WellFormed()
    ensures m.WellFormed()
    decreases |run|
  {
    if run == [] then l else After(Apply(l, run[0]), run[1..])
  }

  /** The initial vector as long as all unread bytes fit into it, otherwise not quite twice as much as them. */
  function SizeBound(bound: int): int {
    if bound <= INIT_SIZE then CHEAP_PREPEND + INIT_SIZE else 2 * bound + CHEAP_PREPEND - 2
  }

  /** A read is offered at least 64 KiB, and a second block only where the first is smaller than that. */
  lemma OfferedAtLeast(l: Layout)
    requires l.WellFormed()
    ensures 65536 <= Offered(l) < l.size + 65536
    ensures Offered(l) == l.Writable() <==> l.Writable() >= 65536
  {
  }

  /** Every call keeps the indices in order, and the readable length moves by exactly what was moved. */
  lemma ApplyKeepsOrder(l: Layout, op: Op)
    requires l.WellFormed() && Allowed(l, op)
    ensures l.size <= Apply(l, op).size
    ensures op.AppendOp? ==> Apply(l, op).Readable() == l.Readable() + op.len
    ensures op.ReadFdOp? ==> Apply(l, op).Readable() == l.Readable() + op.n
    ensures op.RetrieveOp? ==> Apply(l, op).Readable() == if op.len < l.Readable() then l.Readable() - op.len else 0
  {
  }

  /** Compaction happens only when at least one byte has been consumed: source and target differ. */
  lemma CompactionIsForward(l: Layout, len: nat)
    requires l.WellFormed() && l.Writable() < len
    ensures MakeSpace(l, len).size == l.size ==> CHEAP_PREPEND < l.reader
    ensures len <= MakeSpace(l, len).Writable()
  {
  }

  /** The vector grows only to hold the unread bytes plus a gap that the new bytes could not use. */
  lemma ApplyKeepsBound(l: Layout, op: Op, bound: int)
    requires l.WellFormed() && Allowed(l, op)
    requires l.Readable() <= bound && Apply(l, op).Readable() <= bound
    requires CHEAP_PREPEND + INIT_SIZE <= l.size <= SizeBound(bound)
    ensures Apply(l, op).size <= SizeBound(bound)
  {
  }

  lemma {:induction false} RunKeepsBound(l: Layout, run: seq<Op>, bound: int)
    requires l.WellFormed() && CHEAP_PREPEND + INIT_SIZE <= l.size <= SizeBound(bound)
    requires RunWithin(l, run, bound)
    ensures After(l, run).size <= SizeBound(bound)
    decreases |run|
  {
    if run != [] {
      ApplyKeepsOrder(l, run[0]);
      ApplyKeepsBound(l, run[0], bound);
      RunKeepsBound(Apply(l, run[0]), run[1..], bound);
    }
  }

  /** Space bound over every run in which at most M bytes are ever unread: the vector never grows while
      M <= 1024, and never exceeds 2M + 6 bytes otherwise. */
  lemma SpaceBound(run: seq<Op>, bound: int)
    requires RunWithin(EMPTY, run, bound)
    ensures After(EMPTY, run).size <= if bound <= 1024 then 1032 else 2 * bound + 6
  {
    RunKeepsBound(EMPTY, run, bound);
  }

  /** Fill, drain all but one byte, fill again: the one byte blocks compaction of a gap one byte too short. */
  function WorstRun(bound: nat): seq<Op>
    requires bound > INIT_SIZE
  {
    [AppendOp(bound - 1), RetrieveOp(bound - 2), AppendOp(bound - 1)]
  }

  lemma WorstRunStep(l: Layout, run: seq<Op>, bound: int)
    requires l.WellFormed() && run != [] && l.Readable() <= bound && Allowed(l, run[0])
    requires RunWithin(Apply(l, run[0]), run[1..], bound)
    ensures RunWithin(l, run, bound) && After(l, run) == After(Apply(l, run[0]), run[1..])
  {
  }

  /** The bound is attained whatever M is: no smaller bound holds of all runs. */
  lemma SpaceBoundIsTight(bound: nat)
    ensures exists run ::
      RunWithin(EMPTY, run, bound) && After(EMPTY, run).size == if bound <= 1024 then 1032 else 2 * bound + 6
  {
    if bound <= INIT_SIZE {
      assert RunWithin(EMPTY, [], bound) && After(EMPTY, []) == EMPTY;
    } else {
      var run := WorstRun(bound);
      var l1 := Apply(EMPTY, run[0]);
      var l2 := Apply(l1, run[1]);
      var l3 := Apply(l2, run[2]);
      assert run[1..] == [run[1], run[2]] && run[1..][1..] == [run[2]] && [run[2]][1..] == [];
      assert l2 == Layout(bound + 7, bound + 6, bound + 7) && l3.size == 2 * bound + 6;
      assert RunWithin(l3, [], bound) && After(l3, []) == l3;
      WorstRunStep(l2, [run[2]], bound);
      WorstRunStep(l1, run[1..], bound);
      WorstRunStep(EMPTY, run, bound);
    }
  }
}
