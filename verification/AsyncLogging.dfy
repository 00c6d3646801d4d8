/**
 * src/AsyncLogging.cc as a step system: any number of front-end threads call
 * append under the mutex, one back-end thread runs threadFunc. A run is a list
 * of events; every interleaving of critical sections is such a list.
 *
 * A buffer is its address and the log lines it holds; its bytes are their
 * concatenation. An unchecked access to a missing buffer (a moved-from
 * pointer, back() of an empty vector) sets `fault`.
 */
module LogPipeline {
  import opened Seqs
  import opened LogStream

  type Line = string
  datatype LogBuffer = LogBuffer(address: nat, lines: seq<Line>)

  /** Where the back-end thread stands in threadFunc. */
  datatype Pc =
    | NotLaunched      // start() has not been called
    | Launched         // before the loop
    | Head             // at while(running_)
    | InSection        // in the critical section, possibly waiting on cond_
    | Swapped          // left the critical section with a batch
    | Writing(k: nat)  // k buffers of the batch are written
    | Trimmed          // batch written and cut down to two buffers
    | Filled           // newBuffer1 refilled
    | Exited

  datatype State = State(
    running: bool,
    current: Option<LogBuffer>,
    next: Option<LogBuffer>,
    buffers: seq<LogBuffer>,
    pc: Pc,
    new1: Option<LogBuffer>,
    new2: Option<LogBuffer>,
    toWrite: seq<LogBuffer>,
    output: seq<Line>,
    issued: nat,                // addresses handed out by new
    accepted: seq<Line>,           // history: lines short enough to be logged, in order
    batches: seq<seq<LogBuffer>>,  // history: every batch taken by the back end
    fault: bool)

  datatype Event = Append(line: Line) | Start | Stop | Work

  function LinesIn(bs: seq<LogBuffer>): seq<Line>
  {
    if bs == [] then [] else bs[0].lines + LinesIn(bs[1..])
  }

  lemma {:induction false} LinesInConcat(a: seq<LogBuffer>, b: seq<LogBuffer>)
    ensures LinesIn(a + b) == LinesIn(a) + LinesIn(b)
  {
    if a == [] {
      assert a + b == b;
    } else {
      assert (a + b)[1..] == a[1..] + b;
      LinesInConcat(a[1..], b);
    }
  }

  lemma LinesInSnoc(a: seq<LogBuffer>, b: LogBuffer)
    ensures LinesIn(a + [b]) == LinesIn(a) + b.lines
  {
    LinesInConcat(a, [b]);
    assert LinesIn([b]) == b.lines + LinesIn([]);
  }

  function Bytes(b: LogBuffer): nat
  {
    |Flatten(b.lines)|
  }

  predicate Fits(b: LogBuffer, line: Line)
  {
    kLargeBuffer - Bytes(b) > |line|
  }

  /** FixedBuffer::append: a line that does not fit is dropped. */
  function Put(b: LogBuffer, line: Line): LogBuffer
  {
    if Fits(b, line) then b.(lines := b.lines + [line]) else b
  }

  const Init := State(false, Some(LogBuffer(0, [])), Some(LogBuffer(1, [])), [], NotLaunched,
                      None, None, [], [], 2, [], [], false)

  function AppendStep(s: State, line: Line): State
  {
    if s.current.None? then s.(fault := true) else
    var t := s.(accepted := s.accepted + if |line| < kLargeBuffer then [line] else []);
    if Fits(s.current.value, line) then
      t.(current := Some(Put(s.current.value, line)))
    else if s.next.Some? then
      t.(buffers := s.buffers + [s.current.value], next := None, current := Some(Put(s.next.value, line)))
    else
      t.(buffers := s.buffers + [s.current.value], issued := s.issued + 1,
         current := Some(Put(LogBuffer(s.issued, []), line)))
  }

  /** A batch of more than 25 buffers loses everything from index 2 on. */
  function Survivors(batch: seq<LogBuffer>): seq<LogBuffer>
  {
    if |batch| > 25 then batch[..2] else batch
  }

  function SwapStep(s: State): State
  {
    if s.current.None? then s.(fault := true) else
    var batch := s.buffers + [s.current.value];
    s.(current := s.new1, new1 := None,
       buffers := s.toWrite, toWrite := batch,
       next := if s.next.None? then s.new2 else s.next,
       new2 := if s.next.None? then None else s.new2,
       batches := s.batches + [batch],
       pc := Swapped)
  }

  /** A missing spare takes the last buffer of the batch, emptied. */
  function Refill(spare: Option<LogBuffer>, batch: seq<LogBuffer>): Option<LogBuffer>
    requires spare.None? ==> batch != []
  {
    if spare.None? then Some(batch[|batch| - 1].(lines := [])) else spare
  }

  function Rest(spare: Option<LogBuffer>, batch: seq<LogBuffer>): seq<LogBuffer>
    requires spare.None? ==> batch != []
  {
    if spare.None? then batch[..|batch| - 1] else batch
  }

  function LaunchStep(s: State): State
  {
    s.(new1 := Some(LogBuffer(s.issued, [])), new2 := Some(LogBuffer(s.issued + 1, [])),
       issued := s.issued + 2, toWrite := [], pc := Head)
  }

  function DropStep(s: State): State
  {
    s.(toWrite := Survivors(s.toWrite), pc := Writing(0))
  }

  function TestStep(s: State): State
  {
    s.(pc := if s.running then InSection else Exited)
  }

  function WriteStep(s: State, k: nat): State
  {
    if k < |s.toWrite| then
      s.(output := s.output + s.toWrite[k].lines, pc := Writing(k + 1))
    else
      s.(toWrite := if |s.toWrite| > 2 then s.toWrite[..2] else s.toWrite, pc := Trimmed)
  }

  function FillFirst(s: State): State
  {
    if s.new1.None? && s.toWrite == [] then s.(fault := true) else
    s.(new1 := Refill(s.new1, s.toWrite), toWrite := Rest(s.new1, s.toWrite), pc := Filled)
  }

  function FillSecond(s: State): State
  {
    if s.new2.None? && s.toWrite == [] then s.(fault := true) else
    s.(new2 := Refill(s.new2, s.toWrite), toWrite := [], pc := Head)
  }

  function WorkStep(s: State): State
  {
    match s.pc
    case NotLaunched => s
    case Launched => LaunchStep(s)
    case Head => TestStep(s)
    case InSection => SwapStep(s)
    case Swapped => DropStep(s)
    case Writing(k) => WriteStep(s, k)
    case Trimmed => FillFirst(s)
    case Filled => FillSecond(s)
    case Exited => s
  }

  function Step(s: State, e: Event): State
  {
    match e
    case Append(line) => AppendStep(s, line)
    case Start => if s.pc.NotLaunched? then s.(running := true, pc := Launched) else s
    case Stop => s.(running := false)
    case Work => WorkStep(s)
  }

  function Exec(s: State, es: seq<Event>): State
  {
    if es == [] then s else Step(Exec(s, es[..|es| - 1]), es[|es| - 1])
  }

  lemma ExecSnoc(s: State, es: seq<Event>, e: Event)
    ensures Exec(s, es + [e]) == Step(Exec(s, es), e)
  {
    assert (es + [e])[..|es|] == es;
  }

  lemma {:induction false} ExecConcat(s: State, a: seq<Event>, b: seq<Event>)
    ensures Exec(s, a + b) == Exec(Exec(s, a), b)
  {
    if b == [] {
      assert a + b == a;
    } else {
      var c := b[..|b| - 1];
      ExecConcat(s, a, c);
      assert (a + b)[..|a + b| - 1] == a + c;
    }
  }

  // ---------------------------------------------------------------------------
  // Buffer pool safety

  predicate EmptySpare(b: Option<LogBuffer>)
  {
    b.Some? && b.value.lines == []
  }

  /** How many buffers the back end still has to take out of the batch. */
  function Missing(s: State): nat
  {
    (if s.new1.None? then 1 else 0) + (if s.new2.None? then 1 else 0)
  }

  /** What the back end holds at each point: the batch always covers the missing spares. */
  predicate BackEndSafe(s: State)
  {
    match s.pc
    case Swapped => s.new1.None? && Missing(s) <= |s.toWrite|
    case Writing(k) => s.new1.None? && Missing(s) <= |s.toWrite| && k <= |s.toWrite|
    case Trimmed => s.new1.None? && Missing(s) <= |s.toWrite| <= 2
    case Filled => s.new1.Some? && Missing(s) <= |s.toWrite|
    case NotLaunched => s.new1.None? && s.new2.None? && s.toWrite == []
    case Launched => s.new1.None? && s.new2.None? && s.toWrite == []
    case _ => s.new1.Some? && s.new2.Some? && s.toWrite == []
  }

  /**
   * The counting invariant: a missing nextBuffer_ is paid for by a full buffer
   * in buffers_, so the batch that takes newBuffer2 away has two buffers.
   */
  predicate PoolSafe(s: State)
  {
    && !s.fault
    && s.current.Some?
    && (s.next.None? ==> s.buffers != [])
    && (s.next.Some? ==> EmptySpare(s.next))
    && (s.new1.Some? ==> EmptySpare(s.new1))
    && (s.new2.Some? ==> EmptySpare(s.new2))
    && BackEndSafe(s)
  }

  lemma AppendPoolSafe(s: State, line: Line)
    requires PoolSafe(s)
    ensures PoolSafe(AppendStep(s, line))
  {
    var t := AppendStep(s, line);
    assert t.pc == s.pc && t.toWrite == s.toWrite && t.new1 == s.new1 && t.new2 == s.new2;
  }

  lemma SwapPoolSafe(s: State)
    requires PoolSafe(s) && s.pc.InSection?
    ensures PoolSafe(SwapStep(s))
  {
  }

  lemma FillPoolSafe(s: State)
    requires PoolSafe(s)
    ensures s.pc.Trimmed? ==> PoolSafe(FillFirst(s))
    ensures s.pc.Filled? ==> PoolSafe(FillSecond(s))
  {
  }

  lemma WritePoolSafe(s: State, k: nat)
    requires PoolSafe(s) && s.pc == Writing(k)
    ensures PoolSafe(WriteStep(s, k))
  {
  }

  lemma StepPoolSafe(s: State, e: Event)
    requires PoolSafe(s)
    ensures PoolSafe(Step(s, e))
  {
    if e.Append? {
      AppendPoolSafe(s, e.line);
    } else if e.Work? {
      match s.pc
      case InSection => SwapPoolSafe(s);
      case Writing(k) => WritePoolSafe(s, k);
      case Trimmed => FillPoolSafe(s);
      case Filled => FillPoolSafe(s);
      case _ =>
    }
  }

  /**
   * In every interleaving no unchecked access goes wrong: both refills find a
   * buffer, currentBuffer_ is never null between critical sections, and at the
   * loop head both spares are present and empty.
   */
  lemma {:induction false} BufferPoolSafety(es: seq<Event>)
    ensures PoolSafe(Exec(Init, es))
  {
    if es != [] {
      BufferPoolSafety(es[..|es| - 1]);
      StepPoolSafe(Exec(Init, es[..|es| - 1]), es[|es| - 1]);
    }
  }

  // ---------------------------------------------------------------------------
  // No buffer has two owners

  /** The places a buffer can be owned from. */
  datatype Owner = Current | Next | Queue(i: nat) | Spare1 | Spare2 | Batch(i: nat)

  function AddressIn(b: Option<LogBuffer>): Option<nat>
  {
    if b.None? then None else Some(b.value.address)
  }

  function AddressAt(s: State, o: Owner): Option<nat>
  {
    match o
    case Current => AddressIn(s.current)
    case Next => AddressIn(s.next)
    case Queue(i) => if i < |s.buffers| then Some(s.buffers[i].address) else None
    case Spare1 => AddressIn(s.new1)
    case Spare2 => AddressIn(s.new2)
    case Batch(i) => if i < |s.toWrite| then Some(s.toWrite[i].address) else None
  }

  ghost predicate Unaliased(s: State)
  {
    && (forall o :: AddressAt(s, o).Some? ==> AddressAt(s, o).value < s.issued)
    && (forall o, p :: AddressAt(s, o).Some? && AddressAt(s, o) == AddressAt(s, p) ==> o == p)
  }

  /** The owner before a step of the buffer that o owns after it, unless it is new. */
  function Origin(s: State, e: Event, o: Owner): Owner
  {
    match e
    case Append(line) =>
      if s.current.None? || Fits(s.current.value, line) then o
      else if o == Current then Next
      else if o == Queue(|s.buffers|) then Current
      else o
    case Work =>
      (match s.pc
       case InSection =>
         (match o
          case Current => Spare1
          case Next => if s.next.None? then Spare2 else Next
          case Queue(i) => Batch(i)
          case Batch(i) => if i == |s.buffers| then Current else Queue(i)
          case _ => o)
       case Trimmed => if o == Spare1 && s.new1.None? then Batch(if |s.toWrite| > 0 then |s.toWrite| - 1 else 0) else o
       case Filled => if o == Spare2 && s.new2.None? then Batch(if |s.toWrite| > 0 then |s.toWrite| - 1 else 0) else o
       case _ => o)
    case _ => o
  }

  /** Addresses issued by a step, by the owner that receives them. */
  function NewAddress(s: State, e: Event, o: Owner): Option<nat>
  {
    match e
    case Append(line) =>
      if s.current.Some? && !Fits(s.current.value, line) && s.next.None? && o == Current then Some(s.issued) else None
    case Work =>
      if !s.pc.Launched? then None
      else if o == Spare1 then Some(s.issued)
      else if o == Spare2 then Some(s.issued + 1)
      else None
    case _ => None
  }

  lemma SwapMoves(s: State, o: Owner)
    requires PoolSafe(s) && s.pc.InSection? && AddressAt(SwapStep(s), o).Some?
    ensures AddressAt(SwapStep(s), o) == AddressAt(s, Origin(s, Work, o))
  {
  }

  lemma AppendMoves(s: State, line: Line, o: Owner)
    requires PoolSafe(s) && AddressAt(AppendStep(s, line), o).Some?
    ensures AddressAt(AppendStep(s, line), o) ==
      if NewAddress(s, Append(line), o).Some? then NewAddress(s, Append(line), o)
      else AddressAt(s, Origin(s, Append(line), o))
  {
  }

  lemma FillMoves(s: State, o: Owner)
    requires PoolSafe(s) && (s.pc.Trimmed? || s.pc.Filled?) && AddressAt(WorkStep(s), o).Some?
    ensures AddressAt(WorkStep(s), o) == AddressAt(s, Origin(s, Work, o))
  {
  }

  /** A step moves buffers, frees them, or issues new addresses. It never copies an owner. */
  lemma StepMoves(s: State, e: Event, o: Owner)
    requires PoolSafe(s) && AddressAt(Step(s, e), o).Some?
    ensures AddressAt(Step(s, e), o) ==
      if NewAddress(s, e, o).Some? then NewAddress(s, e, o) else AddressAt(s, Origin(s, e, o))
  {
    match e
    case Append(line) => AppendMoves(s, line, o);
    case Work =>
      if s.pc.InSection? {
        SwapMoves(s, o);
      } else if s.pc.Trimmed? || s.pc.Filled? {
        FillMoves(s, o);
      }
    case _ =>
  }

  lemma OriginInjective(s: State, e: Event, o: Owner, p: Owner)
    requires PoolSafe(s) && AddressAt(Step(s, e), o).Some? && AddressAt(Step(s, e), p).Some?
    requires NewAddress(s, e, o).None? && NewAddress(s, e, p).None?
    requires Origin(s, e, o) == Origin(s, e, p)
    ensures o == p
  {
  }

  lemma StepUnaliased(s: State, e: Event)
    requires PoolSafe(s) && Unaliased(s)
    ensures Unaliased(Step(s, e))
  {
    var t := Step(s, e);
    forall o | AddressAt(t, o).Some? ensures AddressAt(t, o).value < t.issued {
      StepMoves(s, e, o);
    }
    forall o, p | AddressAt(t, o).Some? && AddressAt(t, o) == AddressAt(t, p) ensures o == p {
      StepMoves(s, e, o);
      StepMoves(s, e, p);
      if NewAddress(s, e, o).None? && NewAddress(s, e, p).None? {
        OriginInjective(s, e, o, p);
      }
    }
  }

  /** In every interleaving each buffer has at most one owner. */
  lemma {:induction false} BuffersUnaliased(es: seq<Event>)
    ensures Unaliased(Exec(Init, es))
  {
    if es == [] {
    } else {
      BuffersUnaliased(es[..|es| - 1]);
      BufferPoolSafety(es[..|es| - 1]);
      StepUnaliased(Exec(Init, es[..|es| - 1]), es[|es| - 1]);
    }
  }

  // ---------------------------------------------------------------------------
  // Conservation of log lines

  /** All lines of all batches taken so far, before anything is dropped. */
  function Taken(batches: seq<seq<LogBuffer>>): seq<Line>
  {
    if batches == [] then [] else Taken(batches[..|batches| - 1]) + LinesIn(batches[|batches| - 1])
  }

  /** The lines of those batches that are to reach the file: a batch over 25 counts with its first two buffers. */
  function Kept(batches: seq<seq<LogBuffer>>): seq<Line>
  {
    if batches == [] then [] else
    var last := batches[|batches| - 1];
    Kept(batches[..|batches| - 1]) + LinesIn(if |last| > 25 then last[..2] else last)
  }

  /** What the back end has taken and will still write. */
  function Unwritten(s: State): seq<Line>
  {
    match s.pc
    case Swapped => LinesIn(Survivors(s.toWrite))
    case Writing(k) => if k <= |s.toWrite| then LinesIn(s.toWrite[k..]) else []
    case _ => []
  }

  function InFront(s: State): seq<Line>
  {
    LinesIn(s.buffers) + if s.current.Some? then s.current.value.lines else []
  }

  /**
   * Nothing is lost, duplicated, split or reordered, except that batches over 25
   * buffers lose the buffers from index 2 on.
   */
  predicate Conserved(s: State)
  {
    && s.accepted == Taken(s.batches) + InFront(s)
    && s.output + Unwritten(s) == Kept(s.batches)
    && (s.current.Some? ==> Bytes(s.current.value) < kLargeBuffer)
  }

  /** A line is put whole or not at all; into an empty buffer it goes if it is short enough. */
  lemma PutLines(b: LogBuffer, line: Line)
    requires Fits(b, line) || b.lines == []
    ensures Put(b, line).lines == b.lines + if |line| < kLargeBuffer then [line] else []
    ensures Bytes(b) < kLargeBuffer ==> Bytes(Put(b, line)) < kLargeBuffer
  {
    FlattenSnoc(b.lines, line);
    assert b.lines + [] == b.lines;
    if b.lines == [] {
      assert Bytes(b) == 0;
    }
  }

  lemma AppendGrowsFront(s: State, line: Line)
    requires PoolSafe(s)
    ensures InFront(AppendStep(s, line)) == InFront(s) + if |line| < kLargeBuffer then [line] else []
  {
    var cur, tail := s.current.value, if |line| < kLargeBuffer then [line] else [];
    if Fits(cur, line) {
      PutLines(cur, line);
      assert LinesIn(s.buffers) + (cur.lines + tail) == LinesIn(s.buffers) + cur.lines + tail;
    } else {
      LinesInSnoc(s.buffers, cur);
      var b := if s.next.Some? then s.next.value else LogBuffer(s.issued, []);
      PutLines(b, line);
      assert [] + tail == tail;
    }
  }

  lemma AppendBounded(s: State, line: Line)
    requires s.current.Some? && Bytes(s.current.value) < kLargeBuffer && (s.next.Some? ==> s.next.value.lines == [])
    ensures AppendStep(s, line).current.Some? && Bytes(AppendStep(s, line).current.value) < kLargeBuffer
  {
    var b := if Fits(s.current.value, line) then s.current.value
             else if s.next.Some? then s.next.value else LogBuffer(s.issued, []);
    assert b.lines == [] ==> Bytes(b) == 0;
    PutLines(b, line);
  }

  /** A step of the front end. */
  lemma FrontConserves(s: State, t: State, tail: seq<Line>)
    requires Conserved(s) && t.accepted == s.accepted + tail && InFront(t) == InFront(s) + tail
    requires t.batches == s.batches && t.output == s.output && t.pc == s.pc && t.toWrite == s.toWrite
    requires t.current.Some? && Bytes(t.current.value) < kLargeBuffer
    ensures Conserved(t)
  {
    Assoc(Taken(s.batches), InFront(s), tail);
    assert Unwritten(t) == Unwritten(s);
  }

  lemma AppendConserves(s: State, line: Line)
    requires PoolSafe(s) && Conserved(s)
    ensures Conserved(AppendStep(s, line))
  {
    AppendGrowsFront(s, line);
    AppendBounded(s, line);
    FrontConserves(s, AppendStep(s, line), if |line| < kLargeBuffer then [line] else []);
  }

  lemma SwapConserves(s: State)
    requires PoolSafe(s) && Conserved(s) && s.pc.InSection?
    ensures Conserved(SwapStep(s)) && InFront(SwapStep(s)) == []
  {
    var t := SwapStep(s);
    LinesInSnoc(s.buffers, s.current.value);
    assert t.batches[..|t.batches| - 1] == s.batches;
    assert Bytes(t.current.value) == 0;
    assert s.output + [] == s.output;
  }

  lemma WriteConserves(s: State, k: nat)
    requires Conserved(s) && s.pc == Writing(k)
    ensures Conserved(WriteStep(s, k))
  {
    var t := WriteStep(s, k);
    assert InFront(t) == InFront(s);
    if k < |s.toWrite| {
      assert s.toWrite[k..][1..] == s.toWrite[k + 1..];
      Assoc(s.output, s.toWrite[k].lines, LinesIn(s.toWrite[k + 1..]));
    } else if k == |s.toWrite| {
      assert s.toWrite[k..] == [];
    }
  }

  lemma DropConserves(s: State)
    requires Conserved(s) && s.pc.Swapped?
    ensures Conserved(DropStep(s))
  {
    var t := DropStep(s);
    assert t.toWrite[0..] == t.toWrite;
    assert Unwritten(t) == Unwritten(s) && InFront(t) == InFront(s);
  }

  /** Steps that leave the lines where they are. */
  lemma QuietConserves(s: State, t: State)
    requires Conserved(s) && Unwritten(s) == Unwritten(t) == []
    requires t.accepted == s.accepted && t.batches == s.batches && t.output == s.output
    requires t.current == s.current && t.buffers == s.buffers
    ensures Conserved(t)
  {
    assert InFront(t) == InFront(s);
  }

  lemma OtherWorkIsQuiet(s: State)
    requires !s.pc.InSection? && !s.pc.Writing? && !s.pc.Swapped?
    ensures var t := WorkStep(s);
      && Unwritten(s) == Unwritten(t) == []
      && t.accepted == s.accepted && t.batches == s.batches && t.output == s.output
      && t.current == s.current && t.buffers == s.buffers
  {
  }

  lemma StepConserves(s: State, e: Event)
    requires PoolSafe(s) && Conserved(s)
    ensures Conserved(Step(s, e))
  {
    match e
    case Append(line) => AppendConserves(s, line);
    case Work =>
      if s.pc.InSection? {
        SwapConserves(s);
      } else if s.pc.Writing? {
        WriteConserves(s, s.pc.k);
      } else if s.pc.Swapped? {
        DropConserves(s);
      } else {
        OtherWorkIsQuiet(s);
        QuietConserves(s, WorkStep(s));
      }
    case _ =>
      assert InFront(Step(s, e)) == InFront(s) && Unwritten(Step(s, e)) == Unwritten(s);
  }

  /** Log lines are whole and ordered in every interleaving. */
  lemma {:induction false} LinesAreWholeAndOrdered(es: seq<Event>)
    ensures Conserved(Exec(Init, es))
  {
    if es == [] {
      assert Bytes(LogBuffer(0, [])) == 0;
    } else {
      var s := Exec(Init, es[..|es| - 1]);
      LinesAreWholeAndOrdered(es[..|es| - 1]);
      BufferPoolSafety(es[..|es| - 1]);
      StepConserves(s, es[|es| - 1]);
    }
  }

  /**
   * As long as no batch exceeds 25 buffers, the file, the batch in hand and the
   * front end hold every accepted line, in order.
   */
  lemma {:induction false} NothingLostWithoutOverload(es: seq<Event>)
    requires forall b :: b in Exec(Init, es).batches ==> |b| <= 25
    ensures var s := Exec(Init, es); s.accepted == s.output + Unwritten(s) + InFront(s)
  {
    LinesAreWholeAndOrdered(es);
    KeptIsTaken(Exec(Init, es).batches);
  }

  lemma {:induction false} KeptIsTaken(batches: seq<seq<LogBuffer>>)
    requires forall b :: b in batches ==> |b| <= 25
    ensures Kept(batches) == Taken(batches)
  {
    if batches != [] {
      KeptIsTaken(batches[..|batches| - 1]);
    }
  }

  /** The lines that are shorter than a whole buffer. */
  function Short(lines: seq<Line>): seq<Line>
  {
    if lines == [] then [] else
    Short(lines[..|lines| - 1]) + if |lines[|lines| - 1]| < 4_000_000 then [lines[|lines| - 1]] else []
  }

  /** What append was called with in a run. */
  function Appended(es: seq<Event>): seq<Line>
  {
    if es == [] then [] else
    Appended(es[..|es| - 1]) + if es[|es| - 1].Append? then [es[|es| - 1].line] else []
  }

  /** A line is logged if and only if it is shorter than a whole buffer: in every run those are the accepted ones. */
  lemma {:induction false} LoggedIffShorterThanBuffer(es: seq<Event>)
    ensures Exec(Init, es).accepted == Short(Appended(es))
  {
    if es != [] {
      var n := |es| - 1;
      LoggedIffShorterThanBuffer(es[..n]);
      BufferPoolSafety(es[..n]);
      AcceptStep(Exec(Init, es[..n]), es[n]);
      if es[n].Append? {
        ShortSnoc(Appended(es[..n]), es[n].line);
      } else {
        assert Appended(es[..n]) + [] == Appended(es[..n]) && Short(Appended(es[..n])) + [] == Short(Appended(es[..n]));
      }
    }
  }

  lemma AcceptStep(s: State, e: Event)
    requires s.current.Some?
    ensures Step(s, e).accepted == s.accepted + if e.Append? && |e.line| < 4_000_000 then [e.line] else []
  {
  }

  lemma ShortSnoc(lines: seq<Line>, line: Line)
    ensures Short(lines + [line]) == Short(lines) + if |line| < 4_000_000 then [line] else []
  {
    assert (lines + [line])[..|lines|] == lines;
  }

  // ---------------------------------------------------------------------------
  // When a buffer is left

  /** Put is FixedBuffer::append on the bytes. */
  lemma PutAppends(b: LogBuffer, line: Line)
    ensures Flatten(Put(b, line).lines) ==
      if 4_000_000 - |Flatten(b.lines)| > |line| then Flatten(b.lines) + line else Flatten(b.lines)
  {
    FlattenSnoc(b.lines, line);
  }

  /**
   * In every run, append adds a line that the current buffer has room for to that
   * buffer, and does nothing else. Otherwise the buffer is handed over as it is, the
   * spare takes its place if there is one, and only else a buffer is allocated.
   */
  lemma {:induction false} AppendStaysIff(es: seq<Event>, line: Line)
    ensures var s := Exec(Init, es); var t := Step(s, Append(line));
      && s.current.Some? && t.current.Some?
      && var (b, c) := (s.current.value, t.current.value);
      if |Flatten(b.lines)| + |line| < 4_000_000 then
        c == LogBuffer(b.address, b.lines + [line]) && t.buffers == s.buffers && t.next == s.next && t.issued == s.issued
      else
        && c.lines == (if |line| < 4_000_000 then [line] else []) && t.buffers == s.buffers + [b] && t.next == None
        && (if s.next.Some? then c.address == s.next.value.address && t.issued == s.issued
            else c.address == s.issued && t.issued == s.issued + 1)
  {
    BufferPoolSafety(es);
    AppendFront(Exec(Init, es), line);
  }

  lemma AppendFront(s: State, line: Line)
    requires PoolSafe(s)
    ensures var (t, b) := (AppendStep(s, line), s.current.value);
      && t.current.Some? && t.batches == s.batches
      && if |Flatten(b.lines)| + |line| < 4_000_000 then
        && t.current.value == LogBuffer(b.address, b.lines + [line])
        && t.buffers == s.buffers && t.next == s.next && t.issued == s.issued
      else
        && t.current.value.lines == (if |line| < 4_000_000 then [line] else []) && t.buffers == s.buffers + [b]
        && t.next == None
        && (if s.next.Some? then t.current.value.address == s.next.value.address && t.issued == s.issued
            else t.current.value.address == s.issued && t.issued == s.issued + 1)
  {
    assert Bytes(LogBuffer(0, [])) == 0;
  }

  /** The lines given to append between two swaps, for each batch taken in a run and for what is in front. */
  function Periods(es: seq<Event>): (ps: seq<seq<Line>>)
    ensures ps != []
  {
    if es == [] then [[]] else
    var ps, e := Periods(es[..|es| - 1]), es[|es| - 1];
    if e.Append? then ps[..|ps| - 1] + [ps[|ps| - 1] + [e.line]]
    else if e.Work? && Exec(Init, es[..|es| - 1]).pc.InSection? then ps + [[]]
    else ps
  }

  /** The first line that buffer i gets, or that it is taken for. */
  function FirstLine(cuts: seq<nat>, i: nat): nat
    requires i <= |cuts|
  {
    if i == 0 then 0 else cuts[i - 1]
  }

  /** Buffer i holds the short ones of its lines, and was left for line cuts[i], which it had no room for. */
  predicate LeftFor(lines: seq<Line>, bs: seq<LogBuffer>, cuts: seq<nat>, i: nat)
    requires i < |cuts| < |bs|
  {
    var (first, cut) := (FirstLine(cuts, i), cuts[i]);
    && first <= cut < |lines| && (i > 0 ==> first < cut)
    && bs[i].lines == Short(lines[first..cut])
    && |Flatten(bs[i].lines)| < 4_000_000 <= |Flatten(bs[i].lines)| + |lines[cut]|
  }

  /** The last buffer holds the short ones of the rest. */
  predicate HoldsRest(lines: seq<Line>, b: LogBuffer, first: nat)
  {
    first <= |lines| && b.lines == Short(lines[first..]) && |Flatten(b.lines)| < 4_000_000
  }

  predicate Cuts(lines: seq<Line>, bs: seq<LogBuffer>, cuts: seq<nat>)
  {
    && |bs| == |cuts| + 1
    && (forall i {:trigger LeftFor(lines, bs, cuts, i)} :: 0 <= i < |cuts| ==> LeftFor(lines, bs, cuts, i))
    && HoldsRest(lines, bs[|cuts|], FirstLine(cuts, |cuts|))
  }

  /** The lines fill the buffers one after the other, each until a line comes that it has no room for. */
  ghost predicate Packed(lines: seq<Line>, bs: seq<LogBuffer>)
  {
    exists cuts :: Cuts(lines, bs, cuts)
  }

  /** What has been left is not concerned by what comes later. */
  lemma LeftStays(lines: seq<Line>, bs: seq<LogBuffer>, cuts: seq<nat>, i: nat, lines': seq<Line>, bs': seq<LogBuffer>, cuts': seq<nat>)
    requires i < |cuts| < |bs| && LeftFor(lines, bs, cuts, i)
    requires |cuts'| < |bs'| && lines <= lines' && cuts <= cuts' && bs'[i] == bs[i]
    ensures LeftFor(lines', bs', cuts', i)
  {
    assert FirstLine(cuts', i) == FirstLine(cuts, i) && cuts'[i] == cuts[i];
    assert lines'[FirstLine(cuts, i)..cuts[i]] == lines[FirstLine(cuts, i)..cuts[i]];
  }

  lemma PackStays(lines: seq<Line>, bs: seq<LogBuffer>, b: LogBuffer, cuts: seq<nat>, line: Line)
    requires Cuts(lines, bs + [b], cuts) && |Flatten(b.lines)| + |line| < 4_000_000
    ensures Cuts(lines + [line], bs + [LogBuffer(b.address, b.lines + [line])], cuts)
  {
    var (next, c) := (lines + [line], LogBuffer(b.address, b.lines + [line]));
    var first := FirstLine(cuts, |cuts|);
    FlattenSnoc(b.lines, line);
    ShortSnoc(lines[first..], line);
    assert next[first..] == lines[first..] + [line];
    forall i | 0 <= i < |cuts| ensures LeftFor(next, bs + [c], cuts, i) {
      LeftStays(lines, bs + [b], cuts, i, next, bs + [c], cuts);
    }
  }

  lemma PackLeaves(lines: seq<Line>, bs: seq<LogBuffer>, b: LogBuffer, c: LogBuffer, cuts: seq<nat>, line: Line)
    requires Cuts(lines, bs + [b], cuts) && |Flatten(b.lines)| + |line| >= 4_000_000
    requires bs != [] ==> cuts[|cuts| - 1] < |lines|
    requires c.lines == if |line| < 4_000_000 then [line] else []
    ensures Cuts(lines + [line], bs + [b] + [c], cuts + [|lines|])
  {
    var (next, more, all) := (lines + [line], cuts + [|lines|], bs + [b] + [c]);
    FreshHolds(lines, line, c);
    forall i | 0 <= i < |more| ensures LeftFor(next, all, more, i) {
      if i < |cuts| {
        LeftStays(lines, bs + [b], cuts, i, next, all, more);
      } else {
        assert FirstLine(more, i) == FirstLine(cuts, i) && all[i] == b;
        assert next[FirstLine(cuts, i)..|lines|] == lines[FirstLine(cuts, i)..];
      }
    }
  }

  lemma FreshHolds(lines: seq<Line>, line: Line, c: LogBuffer)
    requires c.lines == if |line| < 4_000_000 then [line] else []
    ensures HoldsRest(lines + [line], c, |lines|)
  {
    ShortSnoc([], line);
    FlattenSnoc([], line);
    assert (lines + [line])[|lines|..] == [line] && [] + [line] == [line];
  }

  /** The line a buffer was left for comes before the next one is left. */
  lemma LeftBefore(lines: seq<Line>, bs: seq<LogBuffer>, cuts: seq<nat>)
    requires Cuts(lines, bs, cuts) && cuts != []
    ensures cuts[|cuts| - 1] < |lines|
  {
    assert LeftFor(lines, bs, cuts, |cuts| - 1);
  }

  lemma PackNothing(b: LogBuffer)
    requires b.lines == []
    ensures Packed([], [b])
  {
    assert Cuts([], [b], []);
  }

  ghost predicate PacksOk(s: State, ps: seq<seq<Line>>)
  {
    && |ps| == |s.batches| + 1 && s.current.Some?
    && (forall i :: 0 <= i < |s.batches| ==> Packed(ps[i], s.batches[i]))
    && Packed(ps[|s.batches|], s.buffers + [s.current.value])
  }

  lemma PackedStays(lines: seq<Line>, bs: seq<LogBuffer>, b: LogBuffer, line: Line)
    requires Packed(lines, bs + [b]) && |Flatten(b.lines)| + |line| < 4_000_000
    ensures Packed(lines + [line], bs + [LogBuffer(b.address, b.lines + [line])])
  {
    var cuts :| Cuts(lines, bs + [b], cuts);
    PackStays(lines, bs, b, cuts, line);
  }

  lemma PackedLeaves(lines: seq<Line>, bs: seq<LogBuffer>, b: LogBuffer, c: LogBuffer, line: Line)
    requires Packed(lines, bs + [b]) && |Flatten(b.lines)| + |line| >= 4_000_000
    requires c.lines == if |line| < 4_000_000 then [line] else []
    ensures Packed(lines + [line], bs + [b] + [c])
  {
    var cuts :| Cuts(lines, bs + [b], cuts);
    if cuts != [] {
      LeftBefore(lines, bs + [b], cuts);
    }
    PackLeaves(lines, bs, b, c, cuts, line);
  }

  lemma AppendPacks(s: State, ps: seq<seq<Line>>, line: Line)
    requires PoolSafe(s) && PacksOk(s, ps)
    ensures PacksOk(AppendStep(s, line), ps[..|ps| - 1] + [ps[|ps| - 1] + [line]])
  {
    var lines, b := ps[|ps| - 1], s.current.value;
    AppendFront(s, line);
    if |Flatten(b.lines)| + |line| < 4_000_000 {
      PackedStays(lines, s.buffers, b, line);
    } else {
      PackedLeaves(lines, s.buffers, b, AppendStep(s, line).current.value, line);
    }
  }

  lemma SwapPacks(s: State, ps: seq<seq<Line>>)
    requires PoolSafe(s) && PacksOk(s, ps) && s.pc.InSection?
    ensures PacksOk(SwapStep(s), ps + [[]])
  {
    var t := SwapStep(s);
    assert t.buffers == [] && [] + [t.current.value] == [t.current.value];
    PackNothing(t.current.value);
  }

  lemma StepPacks(s: State, e: Event, ps: seq<seq<Line>>)
    requires PoolSafe(s) && PacksOk(s, ps)
    ensures PacksOk(Step(s, e), if e.Append? then ps[..|ps| - 1] + [ps[|ps| - 1] + [e.line]]
                                else if e.Work? && s.pc.InSection? then ps + [[]] else ps)
  {
    match e
    case Append(line) => AppendPacks(s, ps, line);
    case Work => if s.pc.InSection? { SwapPacks(s, ps); }
    case _ =>
  }

  /**
   * In every run each batch taken, and what is in front, is packed with what was
   * given to append in its period: no buffer is handed over while it has room for
   * the next line.
   */
  lemma {:induction false} BuffersArePacked(es: seq<Event>)
    ensures var (s, ps) := (Exec(Init, es), Periods(es));
      && |ps| == |s.batches| + 1 && s.current.Some?
      && (forall i :: 0 <= i < |s.batches| ==> Packed(ps[i], s.batches[i]))
      && Packed(ps[|s.batches|], s.buffers + [s.current.value])
  {
    if es == [] {
      PackNothing(LogBuffer(0, []));
      assert [] + [LogBuffer(0, [])] == [LogBuffer(0, [])];
    } else {
      var n := |es| - 1;
      BuffersArePacked(es[..n]);
      BufferPoolSafety(es[..n]);
      StepPacks(Exec(Init, es[..n]), es[n], Periods(es[..n]));
    }
  }

  lemma {:induction false} ShortBytes(lines: seq<Line>)
    ensures |Flatten(Short(lines))| <= |Flatten(lines)|
  {
    if lines != [] {
      var (rest, last) := (lines[..|lines| - 1], lines[|lines| - 1]);
      ShortBytes(rest);
      assert lines == rest + [last];
      FlattenSnoc(rest, last);
      FlattenSnoc(Short(rest), last);
      assert Short(rest) + [] == Short(rest);
    }
  }

  /** A buffer that was left, and the line it was left for, are more than a buffer holds. */
  lemma LeftBytes(lines: seq<Line>, bs: seq<LogBuffer>, cuts: seq<nat>, i: nat)
    requires i < |cuts| < |bs| && LeftFor(lines, bs, cuts, i)
    ensures |Flatten(lines[..cuts[i] + 1])| >= |Flatten(lines[..FirstLine(cuts, i)])| + 4_000_000
  {
    var (first, cut) := (FirstLine(cuts, i), cuts[i]);
    ShortBytes(lines[first..cut]);
    assert lines[..cut] == lines[..first] + lines[first..cut] && lines[..cut + 1] == lines[..cut] + [lines[cut]];
    FlattenConcat(lines[..first], lines[first..cut]);
    FlattenSnoc(lines[..cut], lines[cut]);
  }

  lemma MoreBytes(lines: seq<Line>, m: nat, n: nat)
    requires m <= n <= |lines|
    ensures |Flatten(lines[..m])| <= |Flatten(lines[..n])|
  {
    assert lines[..n] == lines[..m] + lines[m..n];
    FlattenConcat(lines[..m], lines[m..n]);
  }

  /** Every second buffer that was left stands for a whole buffer of bytes of its own. */
  lemma {:induction false} CutBytes(lines: seq<Line>, bs: seq<LogBuffer>, cuts: seq<nat>, i: nat)
    requires Cuts(lines, bs, cuts) && i < |cuts|
    ensures cuts[i] < |lines| && |Flatten(lines[..cuts[i] + 1])| >= 4_000_000 * (i / 2 + 1)
  {
    assert LeftFor(lines, bs, cuts, i);
    LeftBytes(lines, bs, cuts, i);
    if i >= 2 {
      CutBytes(lines, bs, cuts, i - 2);
      assert LeftFor(lines, bs, cuts, i - 1);
      MoreBytes(lines, cuts[i - 2] + 1, cuts[i - 1]);
    }
  }

  lemma PackedBytes(lines: seq<Line>, bs: seq<LogBuffer>)
    requires Packed(lines, bs)
    ensures |Flatten(lines)| >= 4_000_000 * (|bs| / 2)
  {
    var cuts :| Cuts(lines, bs, cuts);
    if cuts != [] {
      CutBytes(lines, bs, cuts, |cuts| - 1);
      MoreBytes(lines, cuts[|cuts| - 1] + 1, |lines|);
      assert lines[..|lines|] == lines;
    }
  }

  lemma SmallBatches(batches: seq<seq<LogBuffer>>, ps: seq<seq<Line>>)
    requires |ps| == |batches| + 1 && forall i :: 0 <= i < |batches| ==> Packed(ps[i], batches[i])
    requires forall p :: p in ps ==> |Flatten(p)| < 13 * 4_000_000
    ensures forall b :: b in batches ==> |b| <= 25
  {
    forall i | 0 <= i < |batches| ensures |batches[i]| <= 25 {
      assert ps[i] in ps;
      PackedBytes(ps[i], batches[i]);
    }
  }

  /**
   * As long as less than 13 buffers of text come in between two swaps, no batch
   * exceeds 25 buffers, and nothing is lost.
   */
  lemma {:induction false} NothingLostBelow(es: seq<Event>)
    requires forall p :: p in Periods(es) ==> |Flatten(p)| < 13 * 4_000_000
    ensures forall b :: b in Exec(Init, es).batches ==> |b| <= 25
    ensures var s := Exec(Init, es); Short(Appended(es)) == s.output + Unwritten(s) + InFront(s)
  {
    BuffersArePacked(es);
    SmallBatches(Exec(Init, es).batches, Periods(es));
    NothingLostWithoutOverload(es);
    LoggedIffShorterThanBuffer(es);
  }

  // ---------------------------------------------------------------------------
  // Exit

  function Works(es: seq<Event>): nat
  {
    if es == [] then 0 else Works(es[..|es| - 1]) + if es[|es| - 1].Work? then 1 else 0
  }

  /** How many steps the stopped thread has left at most. */
  function StepsLeft(s: State): int
  {
    match s.pc
    case Exited => 0
    case Head => 1
    case Filled => 2
    case Launched => 2
    case Trimmed => 3
    case Writing(k) => 4 + |s.toWrite| - k
    case Swapped => 30
    case _ => 31
  }

  /** A thread that was launched has been stopped since. */
  predicate Stopped(s: State)
  {
    !s.running && !s.pc.NotLaunched? && (s.pc.Writing? ==> s.pc.k <= |s.toWrite| <= 25)
  }

  lemma StopStep(s: State, e: Event)
    requires Stopped(s) && PoolSafe(s)
    ensures var t := Step(s, e);
      && Stopped(t) && 0 <= StepsLeft(t) <= StepsLeft(s)
      && (e.Work? && !s.pc.Exited? ==> StepsLeft(t) < StepsLeft(s))
      && |t.batches| + (if t.pc.InSection? then 1 else 0) <= |s.batches| + if s.pc.InSection? then 1 else 0
  {
  }

  lemma {:induction false} StopRun(s: State, es: seq<Event>)
    requires Stopped(s) && PoolSafe(s)
    ensures var t := Exec(s, es);
      && Stopped(t) && PoolSafe(t) && (t.pc.Exited? || StepsLeft(t) + Works(es) <= StepsLeft(s))
      && |t.batches| + (if t.pc.InSection? then 1 else 0) <= |s.batches| + if s.pc.InSection? then 1 else 0
  {
    if es != [] {
      var n := |es| - 1;
      StopRun(s, es[..n]);
      StepPoolSafe(Exec(s, es[..n]), es[n]);
      StopStep(Exec(s, es[..n]), es[n]);
    }
  }

  lemma {:induction false} WritingBounded(es: seq<Event>)
    ensures var s := Exec(Init, es); s.pc.Writing? ==> s.pc.k <= |s.toWrite| <= 25
  {
    if es != [] {
      WritingBounded(es[..|es| - 1]);
    }
  }

  /**
   * stop() is heeded: from then on, whatever the front end does, the thread takes
   * at most the batch it is waiting for, and has left after 31 of its steps.
   */
  lemma {:induction false} StopIsHeeded(before: seq<Event>, after: seq<Event>)
    ensures var (s, t) := (Exec(Init, before), Exec(Init, before + [Stop] + after));
      !s.pc.NotLaunched? ==>
        && (Works(after) >= 31 ==> t.pc.Exited?)
        && |t.batches| <= |s.batches| + if s.pc.InSection? then 1 else 0
  {
    var s := Exec(Init, before + [Stop]);
    ExecSnoc(Init, before, Stop);
    ExecConcat(Init, before + [Stop], after);
    BufferPoolSafety(before + [Stop]);
    WritingBounded(before);
    if !s.pc.NotLaunched? {
      StopRun(s, after);
    }
  }

  /** Without it the thread does not leave. */
  lemma {:induction false} LeavesOnlyAfterStop(es: seq<Event>)
    requires Stop !in es
    ensures var s := Exec(Init, es); !s.pc.Exited? && (s.running <==> !s.pc.NotLaunched?)
  {
    if es != [] {
      assert es[|es| - 1] in es;
      LeavesOnlyAfterStop(es[..|es| - 1]);
    }
  }

  lemma StepHistories(s: State, e: Event)
    ensures s.accepted <= Step(s, e).accepted && s.batches <= Step(s, e).batches
  {
  }

  lemma {:induction false} HistoriesGrow(s: State, es: seq<Event>)
    ensures s.accepted <= Exec(s, es).accepted && s.batches <= Exec(s, es).batches
  {
    if es != [] {
      var m := Exec(s, es[..|es| - 1]);
      HistoriesGrow(s, es[..|es| - 1]);
      StepHistories(m, es[|es| - 1]);
      assert Exec(s, es) == Step(m, es[|es| - 1]);
    }
  }

  lemma EmptyFrontAfterSwap(before: seq<Event>)
    requires Exec(Init, before).pc == InSection
    ensures InFront(Exec(Init, before + [Work])) == []
  {
    ExecSnoc(Init, before, Work);
    BufferPoolSafety(before);
    LinesAreWholeAndOrdered(before);
    SwapEmptiesFront(Exec(Init, before));
  }

  lemma SwapEmptiesFront(s: State)
    requires PoolSafe(s) && Conserved(s) && s.pc.InSection?
    ensures InFront(Step(s, Work)) == []
  {
    SwapConserves(s);
    assert Step(s, Work) == SwapStep(s);
  }

  lemma FrontSinceSwap(m: State, s: State)
    requires Conserved(m) && Conserved(s) && InFront(m) == [] && m.batches == s.batches
    ensures InFront(s) == s.accepted[|m.accepted|..]
  {
    assert m.accepted == Taken(s.batches);
  }

  /**
   * Once the thread has exited, the file holds what every batch kept, and the
   * lines left in memory are exactly those accepted after the last swap:
   * nothing is drained after the loop.
   */
  lemma {:induction false} UndrainedAtExit(before: seq<Event>, after: seq<Event>)
    requires Exec(Init, before).pc == InSection
    requires Exec(Init, before + [Work] + after).pc == Exited
    requires |Exec(Init, before + [Work] + after).batches| == |Exec(Init, before + [Work]).batches|
    ensures Exec(Init, before + [Work] + after).output == Kept(Exec(Init, before + [Work] + after).batches)
    ensures Exec(Init, before + [Work]).accepted <= Exec(Init, before + [Work] + after).accepted
    ensures InFront(Exec(Init, before + [Work] + after)) ==
      Exec(Init, before + [Work] + after).accepted[|Exec(Init, before + [Work]).accepted|..]
  {
    var swapped := before + [Work];
    var m, s := Exec(Init, swapped), Exec(Init, swapped + after);
    EmptyFrontAfterSwap(before);
    LinesAreWholeAndOrdered(swapped);
    LinesAreWholeAndOrdered(swapped + after);
    ExecConcat(Init, swapped, after);
    HistoriesGrow(m, after);
    FrontSinceSwap(m, s);
    assert s.output + [] == s.output;
  }

  /** The front end cannot touch what the back end holds. */
  predicate BackEndSame(s: State, t: State)
  {
    s.pc == t.pc && s.new1 == t.new1 && s.new2 == t.new2 && s.toWrite == t.toWrite
    && s.output == t.output && s.batches == t.batches
  }

  lemma FrontEndStepKeepsBackEnd(s: State, e: Event)
    requires e.Append? || e.Stop?
    ensures BackEndSame(s, Step(s, e))
  {
  }

  predicate FrontEvents(es: seq<Event>)
  {
    forall e :: e in es ==> e.Append? || e.Stop?
  }

  /** Any number of calls of append and stop. */
  ghost predicate FrontRun(s: State, t: State)
  {
    exists es :: FrontEvents(es) && t == Exec(s, es)
  }

  /** Whatever the front end does, it keeps the pool safe and leaves what the back end works on alone. */
  lemma {:induction false} FrontRunKeepsBackEnd(s: State, es: seq<Event>)
    requires PoolSafe(s) && FrontEvents(es)
    ensures PoolSafe(Exec(s, es)) && BackEndSame(s, Exec(s, es))
  {
    if es != [] {
      var before, e := es[..|es| - 1], es[|es| - 1];
      assert e in es;
      FrontRunKeepsBackEnd(s, before);
      StepPoolSafe(Exec(s, before), e);
      FrontEndStepKeepsBackEnd(Exec(s, before), e);
    }
  }

  lemma KeptSnoc(batches: seq<seq<LogBuffer>>, batch: seq<LogBuffer>)
    ensures Flatten(Kept(batches + [batch])) == Flatten(Kept(batches)) + Flatten(LinesIn(Survivors(batch)))
  {
    assert (batches + [batch])[..|batches|] == batches;
    FlattenConcat(Kept(batches), LinesIn(Survivors(batch)));
  }

  lemma LinesPrefix(bs: seq<LogBuffer>, i: nat)
    requires i < |bs|
    ensures Flatten(LinesIn(bs[..i + 1])) == Flatten(LinesIn(bs[..i])) + Flatten(bs[i].lines)
  {
    assert bs[..i + 1] == bs[..i] + [bs[i]];
    LinesInSnoc(bs[..i], bs[i]);
    FlattenConcat(LinesIn(bs[..i]), bs[i].lines);
  }
}

/** The class of src/AsyncLogging.cc. Its methods are steps and runs of the step system. */
module AsyncLogging {
  import opened Seqs
  import opened LogStream
  import opened LogPipeline

  class AsyncLogging {
    // Shared with the front end, under mutex_. A unique_ptr is an optional buffer.
    var running: bool
    var currentBuffer: Option<LogBuffer>
    var nextBuffer: Option<LogBuffer>
    var buffers: seq<LogBuffer>
    var issued: nat
    // The local variables of threadFunc, and the bytes given to LogFile::append.
    var newBuffer1: Option<LogBuffer>
    var newBuffer2: Option<LogBuffer>
    var buffersToWrite: seq<LogBuffer>
    var output: string

    // Where the step system stands; the fields above are its concrete part.
    ghost var model: State

    ghost predicate Agrees()
      reads this
    {
      && running == model.running && currentBuffer == model.current && nextBuffer == model.next
      && buffers == model.buffers && issued == model.issued
      && newBuffer1 == model.new1 && newBuffer2 == model.new2 && buffersToWrite == model.toWrite
      && output == Flatten(model.output)
    }

    ghost predicate Valid()
      reads this
    {
      Agrees() && PoolSafe(model)
    }

    constructor ()
      ensures Valid() && model == Init
    {
      running, buffers, issued, buffersToWrite, output := false, [], 2, [], [];
      currentBuffer, nextBuffer := Some(LogBuffer(0, [])), Some(LogBuffer(1, []));
      newBuffer1, newBuffer2 := None, None;
      model := Init;
    }

    method Append(line: Line)
      requires Valid()
      modifies `currentBuffer, `nextBuffer, `buffers, `issued, `model
      ensures Valid() && model == Step(old(model), LogPipeline.Append(line))
    {
      StepPoolSafe(model, LogPipeline.Append(line));
      model := Step(model, LogPipeline.Append(line));
      if Fits(currentBuffer.value, line) {
        currentBuffer := Some(Put(currentBuffer.value, line));
      } else {
        buffers := buffers + [currentBuffer.value];
        if nextBuffer.Some? {
          currentBuffer := nextBuffer;
          nextBuffer := None;
        } else {
          currentBuffer := Some(LogBuffer(issued, []));
          issued := issued + 1;
        }
        currentBuffer := Some(Put(currentBuffer.value, line));
      }
    }

    /** What appending does to the bytes of a buffer: Put is the append of the 4000 * 1000 byte array. */
    static method AppendBytes(bytes: FixedBuffer, ghost b: LogBuffer, line: Line)
      requires bytes.Valid() && bytes.data.Length == kLargeBuffer && bytes.Contents() == Flatten(b.lines)
      modifies bytes`cur, bytes.data
      ensures bytes.Valid() && bytes.Contents() == Flatten(Put(b, line).lines)
    {
      PutAppends(b, line);
      bytes.Append(line);
    }

    method Start()
      requires Valid() && model.pc.NotLaunched?
      modifies `running, `model
      ensures Valid() && model.pc == Launched && model == Step(old(model), LogPipeline.Start)
    {
      StepPoolSafe(model, LogPipeline.Start);
      model := Step(model, LogPipeline.Start);
      running := true;
    }

    method Stop()
      requires Valid()
      modifies `running, `model
      ensures Valid() && model == Step(old(model), LogPipeline.Stop)
    {
      StepPoolSafe(model, LogPipeline.Stop);
      model := Step(model, LogPipeline.Stop);
      running := false;
    }

    /**
     * What the front end may do between two steps of the back end: any run of
     * append and stop calls (FrontRunKeepsBackEnd says what follows of it). The
     * body does nothing; callers know no more than the contract.
     */
    method FrontEnds()
      requires Valid()
      modifies `running, `currentBuffer, `nextBuffer, `buffers, `issued, `model
      ensures Valid() && FrontRun(old(model), model)
    {
      assert FrontEvents([]) && Exec(model, []) == model;
    }

    /** FrontEnds, as the back end sees it. */
    method LetFrontEndsRun()
      requires Valid()
      modifies `running, `currentBuffer, `nextBuffer, `buffers, `issued, `model
      ensures Valid() && BackEndSame(old(model), model)
    {
      ghost var before := model;
      FrontEnds();
      ghost var es :| FrontEvents(es) && model == Exec(before, es);
      FrontRunKeepsBackEnd(before, es);
    }

    /** The critical section of threadFunc, once the wait is over. */
    method TakeBatch()
      requires Valid() && model.pc.InSection?
      modifies `currentBuffer, `nextBuffer, `buffers, `newBuffer1, `newBuffer2, `buffersToWrite, `model
      ensures Valid() && model == SwapStep(old(model))
      ensures buffersToWrite == old(buffers) + [old(currentBuffer).value] && buffers == []
    {
      StepPoolSafe(model, Work);
      model := Step(model, Work);
      buffers := buffers + [currentBuffer.value];
      currentBuffer, newBuffer1 := newBuffer1, None;
      buffersToWrite, buffers := buffers, buffersToWrite;
      if nextBuffer.None? {
        nextBuffer, newBuffer2 := newBuffer2, None;
      }
    }

    /** Cutting an overlong batch down to its first two buffers. */
    method DropExcess()
      requires Valid() && model.pc.Swapped?
      modifies `buffersToWrite, `model
      ensures Valid() && model == DropStep(old(model))
      ensures buffersToWrite == Survivors(old(buffersToWrite)) && model.pc == Writing(0)
    {
      StepPoolSafe(model, Work);
      model := Step(model, Work);
      if |buffersToWrite| > 25 {
        buffersToWrite := buffersToWrite[..2];
      }
    }

    method WriteOne(i: nat)
      requires Valid() && model.pc == Writing(i) && i < |buffersToWrite|
      modifies `output, `model
      ensures Valid() && model == WriteStep(old(model), i)
      ensures model.pc == Writing(i + 1) && output == old(output) + Flatten(buffersToWrite[i].lines)
    {
      FlattenConcat(model.output, buffersToWrite[i].lines);
      StepPoolSafe(model, Work);
      model := Step(model, Work);
      output := output + Flatten(buffersToWrite[i].lines);
    }

    /** One round of the write loop, after whatever the front end did. */
    method WriteNext(i: nat)
      requires Valid() && model.pc == Writing(i) && i < |buffersToWrite|
      modifies `running, `currentBuffer, `nextBuffer, `buffers, `issued, `output, `model
      ensures Valid() && model.pc == Writing(i + 1) && model.batches == old(model).batches
      ensures output == old(output) + Flatten(buffersToWrite[i].lines)
    {
      LetFrontEndsRun();
      WriteOne(i);
    }

    /** Writing every surviving buffer, in order, while the front end keeps appending. */
    method WriteBatch()
      requires Valid() && model.pc == Writing(0)
      modifies `running, `currentBuffer, `nextBuffer, `buffers, `issued, `output, `model
      ensures Valid() && model.pc == Writing(|buffersToWrite|) && model.batches == old(model).batches
      ensures output == old(output) + Flatten(LinesIn(buffersToWrite))
    {
      ghost var was := output;
      for i := 0 to |buffersToWrite|
        invariant Valid() && model.pc == Writing(i) && model.batches == old(model).batches
        invariant output == was + Flatten(LinesIn(buffersToWrite[..i]))
      {
        LinesPrefix(buffersToWrite, i);
        WriteNext(i);
      }
      assert buffersToWrite[..|buffersToWrite|] == buffersToWrite;
    }

    method Trim()
      requires Valid() && model.pc == Writing(|buffersToWrite|)
      modifies `buffersToWrite, `model
      ensures Valid() && model == WriteStep(old(model), |old(buffersToWrite)|) && model.pc == Trimmed
    {
      StepPoolSafe(model, Work);
      model := Step(model, Work);
      if |buffersToWrite| > 2 {
        buffersToWrite := buffersToWrite[..2];
      }
    }

    /** The unchecked back() and pop_back() find a buffer whenever the spare is missing. */
    method RefillFirst()
      requires Valid() && model.pc.Trimmed?
      modifies `newBuffer1, `buffersToWrite, `model
      ensures Valid() && model == FillFirst(old(model)) && model.pc == Filled
    {
      StepPoolSafe(model, Work);
      model := Step(model, Work);
      if newBuffer1.None? {
        newBuffer1 := Some(buffersToWrite[|buffersToWrite| - 1].(lines := []));
        buffersToWrite := buffersToWrite[..|buffersToWrite| - 1];
      }
    }

    method RefillSecond()
      requires Valid() && model.pc.Filled?
      modifies `newBuffer2, `buffersToWrite, `model
      ensures Valid() && model == FillSecond(old(model)) && model.pc == Head
      ensures EmptySpare(newBuffer1) && EmptySpare(newBuffer2)
    {
      StepPoolSafe(model, Work);
      model := Step(model, Work);
      if newBuffer2.None? {
        newBuffer2 := Some(buffersToWrite[|buffersToWrite| - 1].(lines := []));
        buffersToWrite := buffersToWrite[..|buffersToWrite| - 1];
      }
      buffersToWrite := [];
    }

    method Launch()
      requires Valid() && model.pc.Launched?
      modifies `newBuffer1, `newBuffer2, `issued, `buffersToWrite, `model
      ensures Valid() && model == LaunchStep(old(model)) && model.pc == Head
    {
      StepPoolSafe(model, Work);
      model := Step(model, Work);
      newBuffer1, newBuffer2 := Some(LogBuffer(issued, [])), Some(LogBuffer(issued + 1, []));
      issued, buffersToWrite := issued + 2, [];
    }

    /** while(running_) */
    method TestRunning() returns (go: bool)
      requires Valid() && model.pc.Head?
      modifies `model
      ensures Valid() && model == TestStep(old(model))
      ensures go == running && model.pc == if go then InSection else Exited
    {
      StepPoolSafe(model, Work);
      model := Step(model, Work);
      go := running;
    }

    /** What threadFunc does with a batch outside the lock. */
    method WriteOut()
      requires Valid() && model.pc.Swapped?
      modifies this
      ensures Valid() && model.pc == Head && model.batches == old(model).batches
      ensures output == old(output) + Flatten(LinesIn(Survivors(old(buffersToWrite))))
    {
      DropExcess();
      WriteBatch();
      Recycle();
    }

    /** Written buffers become spares again. */
    method Recycle()
      requires Valid() && model.pc == Writing(|buffersToWrite|)
      modifies this
      ensures Valid() && model.pc == Head && model.batches == old(model).batches && output == old(output)
    {
      Trim();
      LetFrontEndsRun();
      RefillFirst();
      LetFrontEndsRun();
      RefillSecond();
    }

    /** One pass through the body of the loop of threadFunc: one batch is taken and written. */
    method Round() returns (ghost batch: seq<LogBuffer>)
      requires Valid() && model.pc.InSection?
      modifies this
      ensures Valid() && model.pc == Head
      ensures model.batches == old(model).batches + [batch]
      ensures output == old(output) + Flatten(LinesIn(Survivors(batch)))
    {
      LetFrontEndsRun();
      TakeBatch();
      batch := buffersToWrite;
      LetFrontEndsRun();
      WriteOut();
    }

    /** threadFunc, observed for at most the given number of rounds. */
    method ThreadFunc(rounds: nat)
      requires Valid() && model.pc == Launched && output == Flatten(Kept(model.batches))
      modifies this
      ensures Valid() && (model.pc.Head? || model.pc.Exited?)
      ensures output == Flatten(Kept(model.batches))
    {
      Launch();
      LetFrontEndsRun();
      var go := TestRunning();
      var n := 0;
      while go
        invariant Valid() && model.pc == (if go then InSection else if n > rounds then Head else Exited)
        invariant output == Flatten(Kept(model.batches))
        decreases go, rounds - n
      {
        ghost var before := model.batches;
        ghost var batch := Round();
        KeptSnoc(before, batch);
        n := n + 1;
        if n > rounds { break; }
        LetFrontEndsRun();
        go := TestRunning();
      }
    }
  }
}
