/** The index arithmetic of the two-index byte buffer, and what every run of buffer operations keeps.
    The class in Buffer.dfy moves the bytes; each of its methods is proved to follow these functions. */
module BufferLayout {

  const CHEAP_PREPEND: nat := 8
  const INITIAL_SIZE: nat := 1024
  const EXTRA_BUFFER: nat := 65536

  /** The vector's size and the two indices into it. */
  datatype Layout = Layout(size: nat, reader: nat, writer: nat) {
    ghost predicate Valid() {
      CHEAP_PREPEND <= reader <= writer <= size
    }

    function Readable(): nat
      requires reader <= writer
    {
      writer - reader
    }

    function Writable(): nat
      requires writer <= size
    {
      size - writer
    }
  }

  function Created(initialSize: nat): Layout {
    Layout(CHEAP_PREPEND + initialSize, CHEAP_PREPEND, CHEAP_PREPEND)
  }

  /** True where too little free space is left on both sides, so that the vector has to grow. */
  predicate MustGrow(l: Layout, len: nat)
    requires l.Valid()
  {
    l.Writable() + l.reader < len + CHEAP_PREPEND
  }

  function MadeSpace(l: Layout, len: nat): Layout
    requires l.Valid() && l.Writable() < len
  {
    if MustGrow(l, len) then l.(size := l.writer + len)
    else l.(reader := CHEAP_PREPEND, writer := CHEAP_PREPEND + l.Readable())
  }

  function Ensured(l: Layout, len: nat): (r: Layout)
    requires l.Valid()
    ensures r.Valid() && r.Readable() == l.Readable() && len <= r.Writable()
  {
    if l.Writable() < len then MadeSpace(l, len) else l
  }

  function Appended(l: Layout, len: nat): (r: Layout)
    requires l.Valid()
    ensures r.Valid() && r.Readable() == l.Readable() + len
  {
    var e := Ensured(l, len);
    e.(writer := e.writer + len)
  }

  function Retrieved(l: Layout, len: nat): (r: Layout)
    requires l.Valid()
    ensures r.Valid() && r.Readable() == if len < l.Readable() then l.Readable() - len else 0
  {
    if len < l.Readable() then l.(reader := l.reader + len)
    else l.(reader := CHEAP_PREPEND, writer := CHEAP_PREPEND)
  }

  /** The room the scatter read offers the kernel: the vector's tail, and the stack area when that tail is short. */
  function Offered(l: Layout): nat
    requires l.Valid()
  {
    if l.Writable() < EXTRA_BUFFER then l.Writable() + EXTRA_BUFFER else l.Writable()
  }

  function Filled(l: Layout, n: nat): (r: Layout)
    requires l.Valid()
    ensures r.Valid() && r.Readable() == l.Readable() + n
  {
    if n <= l.Writable() then l.(writer := l.writer + n)
    else Appended(l.(writer := l.size), n - l.Writable())
  }

  // ---- One growth step

  /** Compaction is chosen only when the readable bytes lie strictly above the reserved prefix, so the
      forward copy that moves them down never overwrites a byte it has still to read; and whichever
      branch is taken leaves room for len bytes without changing what is readable. */
  lemma CompactionMovesDown(l: Layout, len: nat)
    requires l.Valid() && l.Writable() < len
    ensures !MustGrow(l, len) ==> CHEAP_PREPEND < l.reader
    ensures MadeSpace(l, len).Writable() >= len && MadeSpace(l, len).Readable() == l.Readable()
    ensures MustGrow(l, len) <==> MadeSpace(l, len).size != l.size
  {
  }

  /** An append grows the storage only to within twice what is readable afterwards, plus seven. */
  lemma AppendStorage(l: Layout, len: nat)
    requires l.Valid()
    ensures Appended(l, len).size == l.size || Appended(l, len).size <= 2 * Appended(l, len).Readable() + 7
  {
  }

  // ---- Whole runs

  datatype Op =
    | Append(data: seq<char>)
    | Retrieve(len: nat)
    | ReadFd(bytes: seq<char>)

  /** A buffer as its user sees it (the readable bytes) together with its storage. */
  datatype State = State(layout: Layout, contents: seq<char>)

  ghost predicate Consistent(s: State) {
    s.layout.Valid() && s.layout.Readable() == |s.contents|
  }

  ghost function Step(s: State, op: Op): (t: State)
    requires Consistent(s)
    ensures Consistent(t)
  {
    match op
    case Append(data) => State(Appended(s.layout, |data|), s.contents + data)
    case Retrieve(len) => State(Retrieved(s.layout, len), if len < |s.contents| then s.contents[len..] else [])
    case ReadFd(bytes) => State(Filled(s.layout, |bytes|), s.contents + bytes)
  }

  ghost function Run(s: State, ops: seq<Op>): (t: State)
    requires Consistent(s)
    ensures Consistent(t)
  {
    if ops == [] then s else Step(Run(s, ops[..|ops| - 1]), ops[|ops| - 1])
  }

  /** Every scatter read delivers no more than it offers the kernel room for. */
  ghost predicate Possible(s: State, ops: seq<Op>)
    requires Consistent(s)
  {
    forall i | 0 <= i < |ops| :: PossibleAt(s, ops, i)
  }

  ghost predicate PossibleAt(s: State, ops: seq<Op>, i: nat)
    requires Consistent(s) && i < |ops|
  {
    ops[i].ReadFd? ==> |ops[i].bytes| <= Offered(Run(s, ops[..i]).layout)
  }

  /** The bytes put in by a run, in order. */
  ghost function PutIn(ops: seq<Op>): seq<char> {
    if ops == [] then [] else PutIn(ops[..|ops| - 1]) + PutInBy(ops[|ops| - 1])
  }

  ghost function PutInBy(op: Op): seq<char> {
    match op
    case Append(data) => data
    case ReadFd(bytes) => bytes
    case Retrieve(_) => []
  }

  /** The bytes taken out by a run, in order. */
  ghost function TakenOut(s: State, ops: seq<Op>): seq<char>
    requires Consistent(s)
  {
    if ops == [] then []
    else TakenOut(s, ops[..|ops| - 1]) + TakenOutBy(Run(s, ops[..|ops| - 1]), ops[|ops| - 1])
  }

  ghost function TakenOutBy(s: State, op: Op): seq<char> {
    match op
    case Retrieve(len) => if len < |s.contents| then s.contents[..len] else s.contents
    case _ => []
  }

  /** The largest number of readable bytes a run ever reaches. */
  ghost function Peak(s: State, ops: seq<Op>): (p: nat)
    requires Consistent(s)
    ensures |Run(s, ops).contents| <= p
  {
    var now := |Run(s, ops).contents|;
    if ops == [] then now else
      var before := Peak(s, ops[..|ops| - 1]);
      if before < now then now else before
  }

  lemma StepFifo(s: State, op: Op)
    requires Consistent(s)
    ensures TakenOutBy(s, op) + Step(s, op).contents == s.contents + PutInBy(op)
  {
  }

  /** First in, first out over every run: what was taken out followed by what is still readable is what was
      there at first followed by what was put in, in that order. */
  lemma {:induction false} Fifo(s: State, ops: seq<Op>)
    requires Consistent(s)
    ensures TakenOut(s, ops) + Run(s, ops).contents == s.contents + PutIn(ops)
  {
    if ops != [] {
      var init, last := ops[..|ops| - 1], ops[|ops| - 1];
      Fifo(s, init);
      var before, after := Run(s, init), Run(s, ops);
      assert after == Step(before, last);
      StepFifo(before, last);
      Regroup(TakenOut(s, init), TakenOutBy(before, last), after.contents,
              before.contents, PutInBy(last), s.contents, PutIn(init));
    }
  }

  lemma Regroup(taken: seq<char>, more: seq<char>, left: seq<char>, before: seq<char>, put: seq<char>,
                first: seq<char>, earlier: seq<char>)
    requires more + left == before + put && taken + before == first + earlier
    ensures taken + more + left == first + (earlier + put)
  {
    assert taken + more + left == taken + (more + left);
    assert taken + (before + put) == taken + before + put;
    assert first + earlier + put == first + (earlier + put);
  }

  /** Over every run the storage stays within the first allocation or twice the peak of readable bytes, plus seven. */
  lemma {:induction false} StorageBound(initialSize: nat, ops: seq<Op>)
    ensures var s := State(Created(initialSize), []);
            var bound := 2 * Peak(s, ops) + 7;
            var first := CHEAP_PREPEND + initialSize;
            Run(s, ops).layout.size <= if first < bound then bound else first
  {
    var s := State(Created(initialSize), []);
    if ops != [] {
      var init, last := ops[..|ops| - 1], ops[|ops| - 1];
      StorageBound(initialSize, init);
      var before := Run(s, init);
      assert Run(s, ops) == Step(before, last);
      assert Peak(s, init) <= Peak(s, ops);
      match last {
        case Append(d) => AppendStorage(before.layout, |d|);
        case ReadFd(b) =>
          if |b| > before.layout.Writable() {
            AppendStorage(before.layout.(writer := before.layout.size), |b| - before.layout.Writable());
          }
        case Retrieve(_) =>
      }
    }
  }

  /** The storage never shrinks over a run. */
  lemma {:induction false} StorageNeverShrinks(s: State, ops: seq<Op>)
    requires Consistent(s)
    ensures s.layout.size <= Run(s, ops).layout.size
  {
    if ops != [] {
      StorageNeverShrinks(s, ops[..|ops| - 1]);
    }
  }

  /** Over every run an empty buffer is back at its start: both indices at the reserved prefix, so that all the
      storage behind it is writable again. */
  lemma {:induction false} EmptyIsReset(initialSize: nat, ops: seq<Op>)
    ensures var t := Run(State(Created(initialSize), []), ops);
            t.contents == [] ==> t.layout.reader == t.layout.writer == 8 && t.layout.Writable() == t.layout.size - 8
  {
    if ops != [] {
      EmptyIsReset(initialSize, ops[..|ops| - 1]);
    }
  }

  /** One scatter read can always deliver 65536 bytes, and as many more as the tail has room for until that alone
      is room enough. */
  lemma OfferedRoom(l: Layout)
    requires l.Valid()
    ensures Offered(l) >= 65536 && Offered(l) >= l.Writable()
    ensures Offered(l) == l.Writable() + (if l.Writable() < 65536 then 65536 else 0)
  {
  }
}
