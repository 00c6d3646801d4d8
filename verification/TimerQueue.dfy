/**
 * src/TimerQueue.cc and src/Timer.cc: timers on a heap whose addresses are used
 * again, two indexes over them, and callbacks that add and cancel while a batch
 * is being run. Times are unbounded microseconds and seconds are reals.
 */
module TimerProtocol {
  import opened Seqs

  const kMicroSecondsPerSecond: int := 1000 * 1000
  const kUintptrMax: nat := 0xFFFF_FFFF_FFFF_FFFF

  /** No object lies at UINTPTR_MAX, which getExpired uses as an upper bound. */
  type Address = a: nat | a < kUintptrMax

  datatype Timer = Timer(expiration: int, interval: real, sequence: nat) {
    predicate Repeat() {
      interval > 0.0
    }
  }

  /** static_cast<int64_t>: truncation toward zero. */
  function Truncate(x: real): int
  {
    if x >= 0.0 then x.Floor else -(-x).Floor
  }

  function AddTime(time: int, seconds: real): int
  {
    time + Truncate(seconds * kMicroSecondsPerSecond as real)
  }

  /** when is `seconds` after time, cut to whole microseconds. */
  predicate IsAfter(time: int, seconds: real, when: int)
  {
    when as real <= time as real + seconds * 1_000_000.0 < when as real + 1.0
  }

  lemma AddTimeIsAfter(time: int, seconds: real)
    ensures seconds >= 0.0 ==> IsAfter(time, seconds, AddTime(time, seconds))
  {
  }

  function Restart(t: Timer, now: int): Timer
  {
    t.(expiration := if t.Repeat() then AddTime(now, t.interval) else 0)
  }

  type Heap = map<Address, Timer>

  /** An element of timers_; the set is ordered by time, then by address. */
  datatype Entry = Entry(when: int, addr: Address)

  /** A TimerId, which is also what activeTimers_ and cancelingTimers_ hold. */
  datatype TimerId = TimerId(addr: Address, sequence: nat)

  function IdAt(h: Heap, a: Address): TimerId
    requires a in h
  {
    TimerId(a, h[a].sequence)
  }

  datatype Phase =
    | Idle
    | Running(now: int, batch: seq<Entry>, next: nat)                // handleRead is calling batch[next..]
    | Resetting(now: int, left: seq<Entry>, nextExpire: int)         // in reset, with left to go

  datatype Run = Run(sequence: nat, pass: nat, repeats: bool)

  datatype State = State(
    heap: Heap,              // the live Timer objects
    unadded: set<Address>,   // allocated by addTimer, addTimerInLoop still to come
    timers: seq<Entry>,      // timers_
    active: set<TimerId>,    // activeTimers_
    calling: bool,           // callingExpiredTimer_
    canceling: set<TimerId>, // cancelingTimers_
    armed: Option<int>,      // when timerfd_ fires, if it is armed
    phase: Phase,
    created: nat,            // Timer::s_numCreated_
    passes: nat,             // history: calls of handleRead
    ran: seq<Run>,           // history: callbacks called
    deleted: seq<nat>,       // history: sequence numbers of the timers deleted
    fault: bool)             // a Timer was dereferenced or deleted after its deletion

  datatype Event =
    | New(addr: Address, when: int, interval: real)  // addTimer, any thread, at any moment
    | Add(addr: Address)                             // addTimerInLoop
    | Cancel(id: TimerId)                            // cancelInLoop
    | Begin(now: int)                                // handleRead up to the first callback
    | Call                                           // the next callback; the Adds and Cancels after it are its script
    | EndCalls
    | ResetOne                                       // one round of the loop in reset
    | EndReset

  const Init := State(map[], {}, [], {}, false, {}, None, Idle, 0, 0, [], [], false)

  // ---------------------------------------------------------------------------
  // The ordered set timers_

  predicate Less(a: Entry, b: Entry)
  {
    a.when < b.when || (a.when == b.when && a.addr < b.addr)
  }

  predicate Sorted(s: seq<Entry>)
  {
    forall i, j {:trigger Less(s[i], s[j])} :: 0 <= i < j < |s| ==> Less(s[i], s[j])
  }

  function Inserted(s: seq<Entry>, e: Entry): seq<Entry>
  {
    if s == [] || Less(e, s[0]) then [e] + s
    else if s[0] == e then s
    else [s[0]] + Inserted(s[1..], e)
  }

  function Erased(s: seq<Entry>, e: Entry): seq<Entry>
  {
    if s == [] then [] else if s[0] == e then s[1..] else [s[0]] + Erased(s[1..], e)
  }

  /** How many entries precede lower_bound((now, UINTPTR_MAX)). */
  function DueCount(s: seq<Entry>, now: int): (n: nat)
    ensures n <= |s|
  {
    if s == [] || !(s[0].when < now || (s[0].when == now && s[0].addr < kUintptrMax)) then 0
    else 1 + DueCount(s[1..], now)
  }

  lemma {:induction false} InsertedContents(s: seq<Entry>, e: Entry, x: Entry)
    ensures x in Inserted(s, e) <==> x == e || x in s
  {
    if s == [] || Less(e, s[0]) || s[0] == e {
    } else {
      InsertedContents(s[1..], e, x);
      assert s == [s[0]] + s[1..];
    }
  }

  lemma SortedCons(e: Entry, s: seq<Entry>)
    requires Sorted(s) && (s != [] ==> Less(e, s[0]))
    ensures Sorted([e] + s)
  {
    var t := [e] + s;
    forall i, j | 0 <= i < j < |t| ensures Less(t[i], t[j]) {
      if i > 0 {
        assert Less(s[i - 1], s[j - 1]);
      } else if j > 1 {
        assert Less(s[0], s[j - 1]);
      }
    }
  }

  lemma {:induction false} InsertedSorted(s: seq<Entry>, e: Entry)
    requires Sorted(s)
    ensures Sorted(Inserted(s, e))
  {
    if s == [] || Less(e, s[0]) {
      SortedCons(e, s);
    } else if s[0] != e {
      var t := Inserted(s[1..], e);
      InsertedSorted(s[1..], e);
      InsertedContents(s[1..], e, t[0]);
      if t[0] != e {
        FirstLess(s, t[0]);
      }
      SortedCons(s[0], t);
    }
  }

  lemma FirstLess(s: seq<Entry>, x: Entry)
    requires Sorted(s) && s != [] && x in s[1..]
    ensures Less(s[0], x) && x != s[0]
  {
    var j :| 1 <= j < |s| && s[j] == x;
    assert Less(s[0], s[j]);
  }

  lemma {:induction false} ErasedContents(s: seq<Entry>, e: Entry, x: Entry)
    requires Sorted(s)
    ensures x in Erased(s, e) <==> x != e && x in s
  {
    if s != [] {
      assert s == [s[0]] + s[1..];
      if x in s[1..] {
        FirstLess(s, x);
      }
      if s[0] != e {
        ErasedContents(s[1..], e, x);
      }
    }
  }

  /** erase removes one entry exactly when it is there. */
  lemma {:induction false} ErasedSize(s: seq<Entry>, e: Entry)
    requires Sorted(s)
    ensures |Erased(s, e)| == |s| - (if e in s then 1 else 0)
    ensures Sorted(Erased(s, e))
  {
    if s != [] && s[0] != e {
      var t := Erased(s[1..], e);
      ErasedSize(s[1..], e);
      if t != [] {
        ErasedContents(s[1..], e, t[0]);
        FirstLess(s, t[0]);
      }
      SortedCons(s[0], t);
    }
  }

  /** lower_bound with the largest address separates exactly the entries that are due. */
  lemma {:induction false} DueExactly(s: seq<Entry>, now: int)
    requires Sorted(s)
    ensures forall i :: 0 <= i < |s| ==> (i < DueCount(s, now) <==> s[i].when <= now)
  {
    if s != [] && s[0].when <= now {
      DueExactly(s[1..], now);
      forall i | 0 < i < |s| ensures i < DueCount(s, now) <==> s[i].when <= now {
        assert s[i] == s[1..][i - 1];
      }
    } else if s != [] {
      forall i | 0 < i < |s| ensures s[i].when > now {
        assert Less(s[0], s[i]);
      }
    }
  }

  // ---------------------------------------------------------------------------
  // The steps

  /** Code of the loop thread outside handleRead, or inside a callback, may add and cancel. */
  predicate CanAct(s: State)
  {
    s.phase.Idle? || (s.phase.Running? && s.phase.next > 0)
  }

  /** The entries that handleRead holds. */
  function Batch(s: State): seq<Entry>
  {
    match s.phase
    case Idle => []
    case Running(_, batch, _) => batch
    case Resetting(_, left, _) => left
  }

  /** insert: whether the earliest time changes is decided before. */
  function Insert(s: State, a: Address): State
    requires a in s.heap
  {
    s.(timers := Inserted(s.timers, Entry(s.heap[a].expiration, a)), active := s.active + {IdAt(s.heap, a)})
  }

  predicate EarliestChanges(timers: seq<Entry>, when: int)
  {
    timers == [] || when < timers[0].when
  }

  function DoNew(s: State, a: Address, when: int, interval: real): State
  {
    if a in s.heap then s
    else s.(heap := s.heap[a := Timer(when, interval, s.created)], unadded := s.unadded + {a}, created := s.created + 1)
  }

  function DoAdd(s: State, a: Address): State
  {
    if a !in s.unadded || !CanAct(s) then s
    else if a !in s.heap then s.(fault := true)
    else
      var when := s.heap[a].expiration;
      var t := Insert(s.(unadded := s.unadded - {a}), a);
      if EarliestChanges(s.timers, when) then t.(armed := Some(when)) else t
  }

  function Delete(s: State, a: Address): State
    requires a in s.heap
  {
    s.(heap := s.heap - {a}, deleted := s.deleted + [s.heap[a].sequence])
  }

  function DoCancel(s: State, id: TimerId): State
  {
    if !CanAct(s) then s
    else if id in s.active then
      if id.addr !in s.heap then s.(fault := true)
      else
        var e := Entry(s.heap[id.addr].expiration, id.addr);
        Delete(s.(timers := Erased(s.timers, e), active := s.active - {id}), id.addr)
    else if s.calling then s.(canceling := s.canceling + {id})
    else s
  }

  function IdsOf(h: Heap, es: seq<Entry>): set<TimerId>
  {
    set e | e in es && e.addr in h :: IdAt(h, e.addr)
  }

  /** readTimerfd: a timerfd that has fired is disarmed; one re-armed meanwhile for later stays armed. */
  function AfterRead(armed: Option<int>, now: int): Option<int>
  {
    if armed.Some? && armed.value <= now then None else armed
  }

  function DoBegin(s: State, now: int): State
  {
    if !s.phase.Idle? then s
    else
      var n := DueCount(s.timers, now);
      var batch := s.timers[..n];
      s.(armed := AfterRead(s.armed, now),
         timers := s.timers[n..], active := s.active - IdsOf(s.heap, batch),
         fault := s.fault || exists e :: e in batch && e.addr !in s.heap,
         calling := true, canceling := {}, phase := Running(now, batch, 0), passes := s.passes + 1)
  }

  function DoCall(s: State): State
  {
    if s.phase.Running? && s.phase.next < |s.phase.batch| then
      var a := s.phase.batch[s.phase.next].addr;
      if a !in s.heap then s.(fault := true)
      else
        s.(ran := s.ran + [Run(s.heap[a].sequence, s.passes, s.heap[a].Repeat())],
           phase := s.phase.(next := s.phase.next + 1))
    else s
  }

  function DoEndCalls(s: State): State
  {
    if s.phase.Running? && s.phase.next == |s.phase.batch| then
      s.(calling := false, phase := Resetting(s.phase.now, s.phase.batch, 0))
    else s
  }

  /** The first half of a round of reset: back into the queue, or deleted. */
  function Settle(s: State, a: Address, now: int): State
    requires a in s.heap
  {
    if s.heap[a].Repeat() && IdAt(s.heap, a) !in s.canceling then
      Insert(s.(heap := s.heap[a := Restart(s.heap[a], now)]), a)
    else
      Delete(s, a)
  }

  /** The second half: nextExpire keeps its value when timers_ is empty. */
  function Rearm(s: State, nextExpire: int): State
    requires s.phase.Resetting?
  {
    if s.timers != [] && s.timers[0].addr !in s.heap then s.(fault := true)
    else
      var next := if s.timers == [] then nextExpire else s.heap[s.timers[0].addr].expiration;
      s.(phase := s.phase.(nextExpire := next), armed := if next > 0 then Some(next) else s.armed)
  }

  function DoResetOne(s: State): State
  {
    if s.phase.Resetting? && s.phase.left != [] then
      var a := s.phase.left[0].addr;
      if a !in s.heap then s.(fault := true)
      else
        var t := Settle(s, a, s.phase.now);
        Rearm(t.(phase := s.phase.(left := s.phase.left[1..])), s.phase.nextExpire)
    else s
  }

  function DoEndReset(s: State): State
  {
    if s.phase.Resetting? && s.phase.left == [] then s.(phase := Idle) else s
  }

  ghost function Step(s: State, e: Event): State
  {
    match e
    case New(a, when, interval) => DoNew(s, a, when, interval)
    case Add(a) => DoAdd(s, a)
    case Cancel(id) => DoCancel(s, id)
    case Begin(now) => DoBegin(s, now)
    case Call => DoCall(s)
    case EndCalls => DoEndCalls(s)
    case ResetOne => DoResetOne(s)
    case EndReset => DoEndReset(s)
  }

  ghost function Exec(s: State, es: seq<Event>): State
  {
    if es == [] then s else Step(Exec(s, es[..|es| - 1]), es[|es| - 1])
  }

  lemma ExecSnoc(s: State, es: seq<Event>, e: Event)
    ensures Exec(s, es + [e]) == Step(Exec(s, es), e)
  {
    assert (es + [e])[..|es|] == es;
  }

  // ---------------------------------------------------------------------------
  // The invariant

  /** timers_ holds (expiration, t) iff activeTimers_ holds (t, sequence). */
  ghost predicate Agree(h: Heap, timers: seq<Entry>, active: set<TimerId>)
  {
    && (forall e :: e in timers ==> e.addr in h && h[e.addr].expiration == e.when && IdAt(h, e.addr) in active)
    && (forall id :: id in active ==>
          id.addr in h && h[id.addr].sequence == id.sequence && Entry(h[id.addr].expiration, id.addr) in timers)
  }

  /** What handleRead holds is alive and in neither index. */
  ghost predicate Held(h: Heap, batch: seq<Entry>, active: set<TimerId>)
  {
    forall e :: e in batch ==> e.addr in h && h[e.addr].expiration == e.when && IdAt(h, e.addr) !in active
  }

  ghost predicate Waiting(h: Heap, unadded: set<Address>, active: set<TimerId>, batch: seq<Entry>)
  {
    forall a :: a in unadded ==> a in h && IdAt(h, a) !in active && Entry(h[a].expiration, a) !in batch
  }

  ghost predicate Placed(h: Heap, unadded: set<Address>, active: set<TimerId>, batch: seq<Entry>)
  {
    forall a :: a in h ==> a in unadded || IdAt(h, a) in active || Entry(h[a].expiration, a) in batch
  }

  ghost predicate Live(h: Heap, n: nat)
  {
    exists a :: a in h && h[a].sequence == n
  }

  predicate SameNumber(h: Heap, a: Address, b: Address)
  {
    a in h && b in h && h[a].sequence == h[b].sequence
  }

  predicate NoRepeats(ns: seq<nat>)
  {
    ns == [] || (ns[|ns| - 1] !in ns[..|ns| - 1] && NoRepeats(ns[..|ns| - 1]))
  }

  lemma {:induction false} NoRepeatsDistinct(ns: seq<nat>)
    requires NoRepeats(ns)
    ensures forall i, j :: 0 <= i < j < |ns| ==> ns[i] != ns[j]
  {
    if ns != [] {
      NoRepeatsDistinct(ns[..|ns| - 1]);
    }
  }

  /** Every number handed out belongs to one live timer or was deleted once. */
  ghost predicate Numbered(h: Heap, created: nat, deleted: seq<nat>)
  {
    && (forall a :: a in h ==> h[a].sequence < created && h[a].sequence !in deleted)
    && (forall a, b {:trigger SameNumber(h, a, b)} :: SameNumber(h, a, b) ==> a == b)
    && (forall n: nat :: n < created ==> Live(h, n) || n in deleted)
    && (forall n :: n in deleted ==> n < created)
    && NoRepeats(deleted)
  }

  ghost predicate Inv(s: State)
  {
    && Sorted(s.timers) && Sorted(Batch(s))
    && Agree(s.heap, s.timers, s.active)
    && Held(s.heap, Batch(s), s.active)
    && Waiting(s.heap, s.unadded, s.active, Batch(s))
    && Placed(s.heap, s.unadded, s.active, Batch(s))
    && Numbered(s.heap, s.created, s.deleted)
    && (s.calling <==> s.phase.Running?)
    && (s.phase.Running? ==> s.phase.next <= |s.phase.batch|)
    && !s.fault
  }

  lemma NewNumbered(h: Heap, created: nat, deleted: seq<nat>, a: Address, t: Timer)
    requires Numbered(h, created, deleted) && a !in h && t.sequence == created
    ensures Numbered(h[a := t], created + 1, deleted)
  {
    var h' := h[a := t];
    assert a in h' && h'[a].sequence == created;
    forall x, y | SameNumber(h', x, y) ensures x == y {
      assert x != a && y != a ==> SameNumber(h, x, y);
    }
    forall n: nat | n < created && Live(h, n) ensures Live(h', n) {
      var b :| b in h && h[b].sequence == n;
      assert b in h' && h'[b].sequence == n;
    }
  }

  lemma DeleteNumbered(h: Heap, created: nat, deleted: seq<nat>, a: Address)
    requires Numbered(h, created, deleted) && a in h
    ensures Numbered(h - {a}, created, deleted + [h[a].sequence])
  {
    var h' := h - {a};
    assert (deleted + [h[a].sequence])[..|deleted|] == deleted;
    forall x, y | SameNumber(h', x, y) || (x == a && SameNumber(h, x, y)) ensures x == y {
      assert SameNumber(h, x, y);
    }
    forall x | x in h' ensures h'[x].sequence != h[a].sequence {
      assert SameNumber(h, a, x) <==> h[x].sequence == h[a].sequence;
    }
    forall n: nat | n < created ensures Live(h', n) || n in deleted + [h[a].sequence] {
      if Live(h, n) && n != h[a].sequence {
        var b :| b in h && h[b].sequence == n;
        assert b in h' && h'[b].sequence == n;
      }
    }
  }

  lemma RestartNumbered(h: Heap, created: nat, deleted: seq<nat>, a: Address, t: Timer)
    requires Numbered(h, created, deleted) && a in h && t.sequence == h[a].sequence
    ensures Numbered(h[a := t], created, deleted)
  {
    var h' := h[a := t];
    forall x, y | SameNumber(h', x, y) ensures x == y {
      assert SameNumber(h, x, y);
    }
    forall n: nat | n < created && Live(h, n) ensures Live(h', n) {
      var b :| b in h && h[b].sequence == n;
      assert b in h' && h'[b].sequence == n;
    }
  }

  lemma NewInv(s: State, a: Address, when: int, interval: real)
    requires Inv(s)
    ensures Inv(Step(s, New(a, when, interval)))
  {
    if a !in s.heap {
      NewNumbered(s.heap, s.created, s.deleted, a, Timer(when, interval, s.created));
    }
  }

  /** Inserting a live timer that is in no index and not in the batch. */
  lemma InsertAgree(h: Heap, timers: seq<Entry>, active: set<TimerId>, a: Address)
    requires Sorted(timers) && Agree(h, timers, active) && a in h
    ensures Sorted(Inserted(timers, Entry(h[a].expiration, a)))
    ensures Agree(h, Inserted(timers, Entry(h[a].expiration, a)), active + {IdAt(h, a)})
  {
    var e := Entry(h[a].expiration, a);
    InsertedSorted(timers, e);
    forall x ensures x in Inserted(timers, e) <==> x == e || x in timers {
      InsertedContents(timers, e, x);
    }
  }

  lemma InsertPlaced(h: Heap, unadded: set<Address>, active: set<TimerId>, batch: seq<Entry>, a: Address)
    requires Held(h, batch, active) && Waiting(h, unadded, active, batch) && Placed(h, unadded, active, batch)
    requires a in unadded
    ensures var (unadded', active') := (unadded - {a}, active + {IdAt(h, a)});
      && Held(h, batch, active') && Waiting(h, unadded', active', batch) && Placed(h, unadded', active', batch)
  {
    forall e | e in batch ensures e.addr != a {
      assert e == Entry(h[e.addr].expiration, e.addr);
    }
  }

  lemma AddInv(s: State, a: Address)
    requires Inv(s)
    ensures Inv(Step(s, Add(a)))
  {
    if a in s.unadded && CanAct(s) {
      InsertAgree(s.heap, s.timers, s.active, a);
      InsertPlaced(s.heap, s.unadded, s.active, Batch(s), a);
    }
  }

  lemma EraseAgree(h: Heap, timers: seq<Entry>, active: set<TimerId>, id: TimerId)
    requires Sorted(timers) && Agree(h, timers, active) && id in active
    ensures var e := Entry(h[id.addr].expiration, id.addr);
      && Sorted(Erased(timers, e)) && Agree(h - {id.addr}, Erased(timers, e), active - {id})
  {
    var e := Entry(h[id.addr].expiration, id.addr);
    ErasedSize(timers, e);
    forall x ensures x in Erased(timers, e) <==> x != e && x in timers {
      ErasedContents(timers, e, x);
    }
  }

  lemma ErasePlaced(h: Heap, unadded: set<Address>, active: set<TimerId>, batch: seq<Entry>, id: TimerId)
    requires id in active && id.addr in h && IdAt(h, id.addr) == id
    requires Held(h, batch, active) && Waiting(h, unadded, active, batch) && Placed(h, unadded, active, batch)
    ensures var (h', active') := (h - {id.addr}, active - {id});
      && Held(h', batch, active') && Waiting(h', unadded, active', batch) && Placed(h', unadded, active', batch)
  {
    forall e | e in batch ensures e.addr != id.addr {
      assert IdAt(h, e.addr) !in active;
    }
  }

  lemma CancelInv(s: State, id: TimerId)
    requires Inv(s)
    ensures Inv(Step(s, Cancel(id)))
  {
    if CanAct(s) && id in s.active {
      EraseAgree(s.heap, s.timers, s.active, id);
      ErasePlaced(s.heap, s.unadded, s.active, Batch(s), id);
      DeleteNumbered(s.heap, s.created, s.deleted, id.addr);
    }
  }

  lemma BeginAgree(h: Heap, timers: seq<Entry>, active: set<TimerId>, n: nat)
    requires Sorted(timers) && Agree(h, timers, active) && n <= |timers|
    ensures Agree(h, timers[n..], active - IdsOf(h, timers[..n]))
    ensures Held(h, timers[..n], active - IdsOf(h, timers[..n]))
    ensures forall id :: id in active - IdsOf(h, timers[..n]) || Entry(h[id.addr].expiration, id.addr) in timers[..n] <== id in active
  {
    assert timers == timers[..n] + timers[n..];
    forall e, x | e in timers[n..] && x in timers[..n] ensures x != e {
      assert Less(x, e);
    }
    forall e | e in timers[n..] ensures IdAt(h, e.addr) !in IdsOf(h, timers[..n]) {
      forall x | x in timers[..n] ensures IdAt(h, x.addr) != IdAt(h, e.addr) {
        assert h[x.addr].expiration == x.when && x != e;
      }
    }
    forall id | id in active && id !in IdsOf(h, timers[..n]) ensures Entry(h[id.addr].expiration, id.addr) in timers[n..] {
      var e := Entry(h[id.addr].expiration, id.addr);
      assert IdAt(h, e.addr) == id;
      assert e in timers[..n] + timers[n..];
    }
  }

  lemma BeginInv(s: State, now: int)
    requires Inv(s)
    ensures Inv(Step(s, Begin(now)))
  {
    if s.phase.Idle? {
      BeginAgree(s.heap, s.timers, s.active, DueCount(s.timers, now));
    }
  }

  lemma CallInv(s: State)
    requires Inv(s)
    ensures Inv(Step(s, Call))
  {
    if s.phase.Running? && s.phase.next < |s.phase.batch| {
      assert s.phase.batch[s.phase.next] in s.phase.batch;
    }
  }

  lemma EndInv(s: State)
    requires Inv(s)
    ensures Inv(Step(s, EndCalls)) && Inv(Step(s, EndReset))
  {
  }

  /** Nothing else refers to the timer at the front of the batch. */
  lemma LeaveBatch(h: Heap, unadded: set<Address>, active: set<TimerId>, batch: seq<Entry>)
    requires batch != [] && Sorted(batch)
    requires Held(h, batch, active) && Waiting(h, unadded, active, batch)
    ensures var a := batch[0].addr;
      && a !in unadded && (forall id :: id in active && id.addr == a ==> id.sequence != h[a].sequence)
      && (forall e :: e in batch[1..] ==> e.addr != a)
  {
    var e := batch[0];
    assert e in batch && e == Entry(h[e.addr].expiration, e.addr);
    forall x | x in batch[1..] ensures x.addr != e.addr {
      assert Less(e, x) && x in batch;
    }
  }

  lemma RestartPlaced(h: Heap, unadded: set<Address>, active: set<TimerId>, batch: seq<Entry>, t: Timer)
    requires batch != [] && Sorted(batch) && Held(h, batch, active)
    requires Waiting(h, unadded, active, batch) && Placed(h, unadded, active, batch)
    requires t.sequence == h[batch[0].addr].sequence
    ensures var (a, rest) := (batch[0].addr, batch[1..]);
      var (h', active') := (h[a := t], active + {IdAt(h, a)});
      && Held(h', rest, active') && Waiting(h', unadded, active', rest) && Placed(h', unadded, active', rest)
  {
    LeaveBatch(h, unadded, active, batch);
    assert batch == [batch[0]] + batch[1..];
  }

  lemma DropPlaced(h: Heap, unadded: set<Address>, active: set<TimerId>, batch: seq<Entry>)
    requires batch != [] && Sorted(batch) && Held(h, batch, active)
    requires Waiting(h, unadded, active, batch) && Placed(h, unadded, active, batch)
    ensures var (h', rest) := (h - {batch[0].addr}, batch[1..]);
      && Held(h', rest, active) && Waiting(h', unadded, active, rest) && Placed(h', unadded, active, rest)
  {
    LeaveBatch(h, unadded, active, batch);
    assert batch == [batch[0]] + batch[1..];
  }

  /** The indexes do not mention a timer that is in neither. */
  lemma OutsideAgree(h: Heap, h': Heap, timers: seq<Entry>, active: set<TimerId>, a: Address)
    requires Agree(h, timers, active) && a in h && IdAt(h, a) !in active
    requires forall b :: b in h && b != a ==> b in h' && h'[b] == h[b]
    ensures Agree(h', timers, active)
  {
  }

  /** What Inv says during reset, with the batch apart from the state. */
  ghost predicate ResetInv(s: State, left: seq<Entry>)
  {
    && Sorted(s.timers) && Sorted(left)
    && Agree(s.heap, s.timers, s.active)
    && Held(s.heap, left, s.active)
    && Waiting(s.heap, s.unadded, s.active, left)
    && Placed(s.heap, s.unadded, s.active, left)
    && Numbered(s.heap, s.created, s.deleted)
    && !s.calling && !s.fault
  }

  lemma RequeueInv(s: State, left: seq<Entry>, now: int)
    requires ResetInv(s, left) && left != [] && left[0].addr in s.heap
    requires s.heap[left[0].addr].Repeat() && IdAt(s.heap, left[0].addr) !in s.canceling
    ensures ResetInv(Settle(s, left[0].addr, now), left[1..])
  {
    var a := left[0].addr;
    var t := Restart(s.heap[a], now);
    assert left[0] in left;
    RestartPlaced(s.heap, s.unadded, s.active, left, t);
    RestartNumbered(s.heap, s.created, s.deleted, a, t);
    OutsideAgree(s.heap, s.heap[a := t], s.timers, s.active, a);
    InsertAgree(s.heap[a := t], s.timers, s.active, a);
  }

  lemma DeleteInv(s: State, left: seq<Entry>)
    requires ResetInv(s, left) && left != [] && left[0].addr in s.heap
    ensures ResetInv(Delete(s, left[0].addr), left[1..])
  {
    var a := left[0].addr;
    assert left[0] in left;
    DropPlaced(s.heap, s.unadded, s.active, left);
    DeleteNumbered(s.heap, s.created, s.deleted, a);
    OutsideAgree(s.heap, s.heap - {a}, s.timers, s.active, a);
  }

  lemma SettleInv(s: State, left: seq<Entry>, now: int)
    requires ResetInv(s, left) && left != []
    ensures left[0].addr in s.heap && ResetInv(Settle(s, left[0].addr, now), left[1..])
  {
    var a := left[0].addr;
    assert left[0] in left;
    if s.heap[a].Repeat() && IdAt(s.heap, a) !in s.canceling {
      RequeueInv(s, left, now);
    } else {
      DeleteInv(s, left);
    }
  }

  lemma ResetOneInv(s: State)
    requires Inv(s)
    ensures Inv(Step(s, ResetOne))
  {
    if s.phase.Resetting? && s.phase.left != [] {
      var left := s.phase.left;
      SettleInv(s, left, s.phase.now);
      var t := Settle(s, left[0].addr, s.phase.now);
      if t.timers != [] {
        assert t.timers[0] in t.timers;
      }
    }
  }

  lemma {:induction false} StepInv(s: State, e: Event)
    requires Inv(s)
    ensures Inv(Step(s, e))
  {
    match e
    case New(a, when, interval) => NewInv(s, a, when, interval);
    case Add(a) => AddInv(s, a);
    case Cancel(id) => CancelInv(s, id);
    case Begin(now) => BeginInv(s, now);
    case Call => CallInv(s);
    case EndCalls => EndInv(s);
    case ResetOne => ResetOneInv(s);
    case EndReset => EndInv(s);
  }

  lemma {:induction false} ExecInv(s: State, es: seq<Event>)
    requires Inv(s)
    ensures Inv(Exec(s, es))
  {
    if es != [] {
      ExecInv(s, es[..|es| - 1]);
      StepInv(Exec(s, es[..|es| - 1]), es[|es| - 1]);
    }
  }

  // ---------------------------------------------------------------------------
  // Ownership and the two indexes, over every run

  ghost predicate IsUnadded(s: State, n: nat)
  {
    exists a :: a in s.unadded && a in s.heap && s.heap[a].sequence == n
  }

  ghost predicate IsQueued(s: State, n: nat)
  {
    exists id :: id in s.active && id.sequence == n
  }

  ghost predicate IsInBatch(s: State, n: nat)
  {
    exists e :: e in Batch(s) && e.addr in s.heap && s.heap[e.addr].sequence == n
  }

  ghost function Holders(s: State, n: nat): nat
  {
    (if IsUnadded(s, n) then 1 else 0) + (if IsQueued(s, n) then 1 else 0)
    + (if IsInBatch(s, n) then 1 else 0) + (if n in s.deleted then 1 else 0)
  }

  ghost predicate DistinctDeletions(s: State)
  {
    forall i, j :: 0 <= i < j < |s.deleted| ==> s.deleted[i] != s.deleted[j]
  }

  /**
   * Whatever callbacks add and cancel, and however addresses are used again:
   * every timer ever allocated is in exactly one of the four places, none is
   * deleted twice, and no deleted timer is touched.
   */
  lemma {:induction false} TimerOwnership(es: seq<Event>, n: nat)
    ensures var s := Exec(Init, es);
      !s.fault && DistinctDeletions(s) && Holders(s, n) == if n < s.created then 1 else 0
  {
    var s := Exec(Init, es);
    ExecInv(Init, es);
    NoRepeatsDistinct(s.deleted);
    HoldersExact(s, n);
  }

  lemma HoldersExact(s: State, n: nat)
    requires Inv(s)
    ensures Holders(s, n) == if n < s.created then 1 else 0
  {
    if Live(s.heap, n) {
      var a :| a in s.heap && s.heap[a].sequence == n;
      LiveHolder(s, a);
    } else {
      forall id | id in s.active ensures id.sequence != n {
        assert id.addr in s.heap;
      }
      assert !IsUnadded(s, n) && !IsQueued(s, n) && !IsInBatch(s, n);
    }
  }

  lemma LiveHolder(s: State, a: Address)
    requires Inv(s) && a in s.heap
    ensures IsUnadded(s, s.heap[a].sequence) <==> a in s.unadded
    ensures IsQueued(s, s.heap[a].sequence) <==> IdAt(s.heap, a) in s.active
    ensures IsInBatch(s, s.heap[a].sequence) <==> Entry(s.heap[a].expiration, a) in Batch(s)
  {
    var n := s.heap[a].sequence;
    if IsQueued(s, n) {
      var id :| id in s.active && id.sequence == n;
      assert SameNumber(s.heap, id.addr, a);
    }
    if IsUnadded(s, n) {
      var b :| b in s.unadded && b in s.heap && s.heap[b].sequence == n;
      assert SameNumber(s.heap, b, a);
    }
    if IsInBatch(s, n) {
      var e :| e in Batch(s) && e.addr in s.heap && s.heap[e.addr].sequence == n;
      assert SameNumber(s.heap, e.addr, a);
      assert e == Entry(s.heap[a].expiration, a);
    }
  }

  lemma {:induction false} IdsSize(h: Heap, es: seq<Entry>)
    requires Sorted(es) && forall e :: e in es ==> e.addr in h && h[e.addr].expiration == e.when
    ensures |IdsOf(h, es)| == |es|
  {
    if es == [] {
      assert IdsOf(h, es) == {};
    } else {
      var n := |es| - 1;
      var last := es[n];
      IdsSize(h, es[..n]);
      assert es == es[..n] + [last];
      forall e | e in es[..n] ensures e.addr != last.addr {
        assert Less(e, last);
      }
      assert IdsOf(h, es) == IdsOf(h, es[..n]) + {IdAt(h, last.addr)};
    }
  }

  /** In every run the two indexes hold the same timers, so they have the same size. */
  lemma {:induction false} IndexesAgree(es: seq<Event>)
    ensures var s := Exec(Init, es); Agree(s.heap, s.timers, s.active) && |s.timers| == |s.active|
  {
    ExecInv(Init, es);
    var s := Exec(Init, es);
    assert IdsOf(s.heap, s.timers) == s.active by {
      forall id | id in s.active ensures id in IdsOf(s.heap, s.timers) {
        assert Entry(s.heap[id.addr].expiration, id.addr) in s.timers;
      }
    }
    IdsSize(s.heap, s.timers);
  }

  // ---------------------------------------------------------------------------
  // Cancel is exact and final

  /**
   * Cancelling a queued timer deletes that timer, with one entry out of each
   * index. Any other id, such as a stale one whose address holds a new timer,
   * changes neither the heap nor an index.
   */
  lemma CancelExact(s: State, id: TimerId)
    requires Inv(s) && CanAct(s)
    ensures var t := DoCancel(s, id);
      if id in s.active then
        && t.deleted == s.deleted + [id.sequence] && id.addr !in t.heap
        && |t.timers| == |s.timers| - 1 && t.active == s.active - {id}
        && (forall a :: a in s.heap && a != id.addr ==> a in t.heap && t.heap[a] == s.heap[a])
        && (forall e :: e in s.timers && e.addr != id.addr ==> e in t.timers)
      else
        t.heap == s.heap && t.timers == s.timers && t.active == s.active && t.deleted == s.deleted
  {
    if id in s.active {
      var x := Entry(s.heap[id.addr].expiration, id.addr);
      ErasedSize(s.timers, x);
      forall e | e in s.timers && e.addr != id.addr ensures e in Erased(s.timers, x) {
        ErasedContents(s.timers, x, e);
      }
    }
  }

  /** A cancelled timer is gone, or it is in the batch and marked until reset deletes it. */
  ghost predicate Doomed(s: State, id: TimerId, pass: nat)
  {
    || id.sequence in s.deleted
    || (s.passes == pass && id in s.canceling
        && id.addr in s.heap && IdAt(s.heap, id.addr) == id && Entry(s.heap[id.addr].expiration, id.addr) in Batch(s))
  }

  lemma CancelDooms(s: State, id: TimerId)
    requires Inv(s) && CanAct(s)
    requires id.addr in s.heap && IdAt(s.heap, id.addr) == id && id.addr !in s.unadded
    ensures Doomed(DoCancel(s, id), id, s.passes)
    ensures id in s.active ==> id.sequence in DoCancel(s, id).deleted
  {
  }

  lemma CancelDoomed(s: State, other: TimerId, id: TimerId, pass: nat)
    requires Inv(s) && Doomed(s, id, pass)
    ensures Doomed(Step(s, Cancel(other)), id, pass)
  {
    if CanAct(s) && other in s.active && id.sequence !in s.deleted {
      assert IdAt(s.heap, other.addr) == other;
      assert other.addr != id.addr;
    }
  }

  lemma ResetDoomed(s: State, id: TimerId, pass: nat)
    requires Held(s.heap, Batch(s), s.active) && Doomed(s, id, pass)
    ensures Doomed(Step(s, ResetOne), id, pass)
  {
    if s.phase.Resetting? && s.phase.left != [] {
      var left := s.phase.left;
      assert left == [left[0]] + left[1..] && left[0] in left;
      ResetFates(s);
    }
  }

  lemma StepDoomed(s: State, e: Event, id: TimerId, pass: nat)
    requires Inv(s) && Doomed(s, id, pass)
    ensures Doomed(Step(s, e), id, pass)
  {
    match e
    case Cancel(other) => CancelDoomed(s, other, id, pass);
    case ResetOne => ResetDoomed(s, id, pass);
    case _ =>
  }

  lemma StepDeleted(s: State, e: Event)
    requires Inv(s)
    ensures s.deleted <= Step(s, e).deleted
  {
  }

  lemma StepRan(s: State, e: Event)
    requires Inv(s)
    ensures s.ran <= Step(s, e).ran && |Step(s, e).ran| <= |s.ran| + 1
    ensures var t := Step(s, e);
      |t.ran| > |s.ran| ==>
        && t.ran[|s.ran|].pass == s.passes && t.ran[|s.ran|].sequence !in s.deleted
        && IsInBatch(s, t.ran[|s.ran|].sequence)
  {
    if e.Call? && s.phase.Running? && s.phase.next < |s.phase.batch| {
      assert s.phase.batch[s.phase.next] in Batch(s);
    }
  }

  /** Between `before` and `after`, timer n ran in no pass but the given one, and not at all if it was gone. */
  predicate RanLast(before: seq<Run>, after: seq<Run>, n: nat, pass: nat, gone: bool)
  {
    && before <= after
    && forall i :: |before| <= i < |after| && after[i].sequence == n ==> after[i].pass == pass && !gone
  }

  /** A doomed timer is called in its last pass at most. */
  lemma DoomedRun(s: State, t: State, id: TimerId, pass: nat, before: seq<Run>, gone: bool)
    requires Numbered(s.heap, s.created, s.deleted) && Doomed(s, id, pass) && (gone ==> id.sequence in s.deleted)
    requires RanLast(before, s.ran, id.sequence, pass, gone)
    requires s.ran <= t.ran && |t.ran| <= |s.ran| + 1
    requires |t.ran| > |s.ran| ==> t.ran[|s.ran|].pass == s.passes && t.ran[|s.ran|].sequence !in s.deleted
    ensures RanLast(before, t.ran, id.sequence, pass, gone)
  {
  }

  lemma {:induction false} DoomedForever(s: State, id: TimerId, pass: nat, es: seq<Event>)
    requires Inv(s) && Doomed(s, id, pass)
    ensures var t := Exec(s, es);
      Inv(t) && Doomed(t, id, pass) && s.deleted <= t.deleted
      && RanLast(s.ran, t.ran, id.sequence, pass, id.sequence in s.deleted)
  {
    if es != [] {
      var prev, e := Exec(s, es[..|es| - 1]), es[|es| - 1];
      DoomedForever(s, id, pass, es[..|es| - 1]);
      StepInv(prev, e);
      StepDoomed(prev, e, id, pass);
      StepDeleted(prev, e);
      StepRan(prev, e);
      DoomedRun(prev, Step(prev, e), id, pass, s.ran, id.sequence in s.deleted);
    }
  }

  /**
   * Cancel is final: a timer whose add has run, once cancelled (by another timer
   * of the batch, by itself, or from outside), is never queued again and never
   * runs in a later pass; and if it was queued, it never runs again at all.
   */
  lemma {:induction false} CancelIsFinal(s: State, id: TimerId, es: seq<Event>)
    requires Inv(s) && CanAct(s)
    requires id.addr in s.heap && IdAt(s.heap, id.addr) == id && id.addr !in s.unadded
    ensures var t := Exec(DoCancel(s, id), es);
      && !IsQueued(t, id.sequence)
      && RanLast(s.ran, t.ran, id.sequence, s.passes, id in s.active)
  {
    CancelInv(s, id);
    CancelDooms(s, id);
    DoomedForever(DoCancel(s, id), id, s.passes, es);
    DoomedNotQueued(Exec(DoCancel(s, id), es), id, s.passes);
  }

  /**
   * Cancel of a timer whose add has not run yet is lost: the loop thread was
   * handed the id by another thread, and the add is still among the functors.
   */
  lemma CancelBeforeAddIsLost(s: State, id: TimerId)
    requires Inv(s) && CanAct(s)
    requires id.addr in s.heap && IdAt(s.heap, id.addr) == id && id.addr in s.unadded
    ensures var t := Step(DoCancel(s, id), Add(id.addr)); id in t.active && id.addr in t.heap && IdAt(t.heap, id.addr) == id
  {
  }

  /** Cancel of a live timer is final exactly when its add has run. */
  lemma {:induction false} CancelFinalIff(s: State, id: TimerId)
    requires Inv(s) && CanAct(s)
    requires id.addr in s.heap && IdAt(s.heap, id.addr) == id
    ensures (forall es :: !IsQueued(Exec(DoCancel(s, id), es), id.sequence)) <==> id.addr !in s.unadded
  {
    var t := DoCancel(s, id);
    if id.addr in s.unadded {
      CancelBeforeAddIsLost(s, id);
      ExecSnoc(t, [], Add(id.addr));
      assert IsQueued(Exec(t, [] + [Add(id.addr)]), id.sequence);
    } else {
      forall es ensures !IsQueued(Exec(t, es), id.sequence) {
        CancelIsFinal(s, id, es);
      }
    }
  }

  lemma DoomedNotQueued(s: State, id: TimerId, pass: nat)
    requires Inv(s) && Doomed(s, id, pass)
    ensures !IsQueued(s, id.sequence)
  {
    if id.sequence !in s.deleted {
      LiveHolder(s, id.addr);
    } else {
      forall x | x in s.active ensures x.sequence != id.sequence {
        assert x.addr in s.heap;
      }
    }
  }

  // ---------------------------------------------------------------------------
  // One pass of handleRead

  ghost predicate NoBegin(es: seq<Event>)
  {
    forall e :: e in es ==> !e.Begin?
  }

  function Due(s: State, now: int): seq<Entry>
  {
    s.timers[..DueCount(s.timers, now)]
  }

  /** A pass: what it found when it began. */
  datatype Pass = Pass(heap: Heap, due: seq<Entry>, ran: seq<Run>, now: int, number: nat)

  function PassAt(s: State, now: int): Pass
  {
    Pass(s.heap, Due(s, now), s.ran, now, s.passes + 1)
  }

  ghost predicate GoodPass(p: Pass)
  {
    Sorted(p.due) && forall e :: e in p.due ==> e.addr in p.heap && p.heap[e.addr].expiration == e.when
  }

  /** The first k of the due timers have run in this pass, in order, and nothing else has. */
  ghost predicate RanPrefix(p: Pass, k: nat, after: seq<Run>)
  {
    && k <= |p.due| && |after| == |p.ran| + k && p.ran <= after
    && forall i :: 0 <= i < k ==>
         && p.due[i].addr in p.heap
         && after[|p.ran| + i] == Run(p.heap[p.due[i].addr].sequence, p.number, p.heap[p.due[i].addr].Repeat())
  }

  /** How many of a batch of n have been called. */
  function Called(phase: Phase, n: nat): nat
  {
    if phase.Running? then phase.next else n
  }

  ghost predicate SamePart(h: Heap, h': Heap, es: seq<Entry>)
  {
    forall e :: e in es ==> e.addr in h && e.addr in h' && h'[e.addr] == h[e.addr]
  }

  ghost predicate PhaseOf(p: Pass, phase: Phase, h: Heap)
  {
    match phase
    case Idle => true
    case Running(now, batch, _) => now == p.now && batch == p.due && SamePart(p.heap, h, p.due)
    case Resetting(now, left, _) =>
      now == p.now && |left| <= |p.due| && left == p.due[|p.due| - |left|..] && SamePart(p.heap, h, left)
  }

  /** During pass p and, until the next one, after it. */
  ghost predicate InPass(p: Pass, t: State)
  {
    t.passes == p.number && RanPrefix(p, Called(t.phase, |p.due|), t.ran) && PhaseOf(p, t.phase, t.heap)
  }

  lemma BeginPass(s: State, now: int)
    requires Inv(s) && s.phase.Idle?
    ensures GoodPass(PassAt(s, now)) && InPass(PassAt(s, now), DoBegin(s, now))
  {
  }

  lemma RanNext(p: Pass, k: nat, after: seq<Run>, r: Run)
    requires RanPrefix(p, k, after) && k < |p.due| && p.due[k].addr in p.heap
    requires r == Run(p.heap[p.due[k].addr].sequence, p.number, p.heap[p.due[k].addr].Repeat())
    ensures RanPrefix(p, k + 1, after + [r])
  {
  }

  lemma CallPass(p: Pass, t: State)
    requires Inv(t) && InPass(p, t)
    ensures InPass(p, Step(t, Call))
  {
    if t.phase.Running? && t.phase.next < |t.phase.batch| {
      var e := t.phase.batch[t.phase.next];
      assert e in t.phase.batch;
      RanNext(p, t.phase.next, t.ran, Run(t.heap[e.addr].sequence, t.passes, t.heap[e.addr].Repeat()));
    }
  }

  lemma CancelSamePart(h: Heap, h': Heap, due: seq<Entry>, active: set<TimerId>, id: TimerId)
    requires SamePart(h, h', due) && Held(h', due, active) && id in active && id.addr in h' && IdAt(h', id.addr) == id
    ensures SamePart(h, h' - {id.addr}, due)
  {
    forall e | e in due ensures e.addr != id.addr {
      assert IdAt(h', e.addr) !in active;
    }
  }

  lemma CancelPass(p: Pass, t: State, id: TimerId)
    requires Inv(t) && InPass(p, t)
    ensures InPass(p, Step(t, Cancel(id)))
  {
    if CanAct(t) && id in t.active && t.phase.Running? {
      CancelSamePart(p.heap, t.heap, p.due, t.active, id);
    }
  }

  lemma ResetPhase(p: Pass, phase: Phase, h: Heap, h': Heap, nextExpire: int)
    requires PhaseOf(p, phase, h) && phase.Resetting? && phase.left != []
    requires forall e :: e in phase.left[1..] ==> e.addr in h' && e.addr in h && h'[e.addr] == h[e.addr]
    ensures PhaseOf(p, Resetting(phase.now, phase.left[1..], nextExpire), h')
  {
    var left := phase.left;
    assert left[1..] == p.due[|p.due| - |left| + 1..];
    assert forall e :: e in left[1..] ==> e in left;
  }

  lemma ResetPass(p: Pass, t: State)
    requires Inv(t) && InPass(p, t)
    ensures InPass(p, Step(t, ResetOne))
  {
    if t.phase.Resetting? && t.phase.left != [] {
      var left, u := t.phase.left, DoResetOne(t);
      assert left[0] in left;
      LeaveBatch(t.heap, t.unadded, t.active, left);
      ResetFates(t);
      forall e | e in left[1..] ensures e.addr in u.heap && e.addr in t.heap && u.heap[e.addr] == t.heap[e.addr] {
        assert e in left;
      }
      ResetPhase(p, t.phase, t.heap, u.heap, u.phase.nextExpire);
    }
  }

  lemma StepPass(p: Pass, t: State, e: Event)
    requires Inv(t) && InPass(p, t) && !e.Begin?
    ensures InPass(p, Step(t, e))
  {
    match e
    case Call => CallPass(p, t);
    case Cancel(id) => CancelPass(p, t, id);
    case ResetOne => ResetPass(p, t);
    case _ =>
  }

  lemma {:induction false} ExecPass(s: State, now: int, es: seq<Event>)
    requires Inv(s) && s.phase.Idle? && NoBegin(es)
    ensures InPass(PassAt(s, now), Exec(DoBegin(s, now), es)) && Inv(Exec(DoBegin(s, now), es))
  {
    if es == [] {
      BeginInv(s, now);
      BeginPass(s, now);
    } else {
      var n := |es| - 1;
      assert es[n] in es;
      ExecPass(s, now, es[..n]);
      StepPass(PassAt(s, now), Exec(DoBegin(s, now), es[..n]), es[n]);
      StepInv(Exec(DoBegin(s, now), es[..n]), es[n]);
    }
  }

  lemma DueEntries(s: State, now: int)
    requires Sorted(s.timers)
    ensures Sorted(Due(s, now)) && forall e :: e in Due(s, now) <==> e in s.timers && e.when <= now
  {
    DueExactly(s.timers, now);
    forall e | e in s.timers && e.when <= now ensures e in Due(s, now) {
      var i :| 0 <= i < |s.timers| && s.timers[i] == e;
      assert Due(s, now)[i] == e;
    }
  }

  /**
   * handleRead(now) is exact: the callbacks called are those of a prefix of
   * timers_, in its order, each once; by the end of the calls the prefix is all
   * of the entries with expiration at most now; and nothing that a callback adds
   * is among them.
   */
  lemma {:induction false} HandleReadRunsExactlyTheDue(s: State, now: int, es: seq<Event>)
    requires Inv(s) && s.phase.Idle? && NoBegin(es)
    ensures var (t, p) := (Exec(DoBegin(s, now), es), PassAt(s, now));
      RanPrefix(p, Called(t.phase, |p.due|), t.ran)
    ensures Sorted(Due(s, now)) && forall e :: e in Due(s, now) <==> e in s.timers && e.when <= now
  {
    ExecPass(s, now, es);
    DueEntries(s, now);
  }

  // What becomes of the timers that ran

  /** reset keeps an uncancelled repeater, restarted, and deletes any other. */
  ghost predicate Fate(h: Heap, e: Entry, now: int, t: State)
  {
    e.addr in h &&
    if h[e.addr].Repeat() && IdAt(h, e.addr) !in t.canceling then
      IdAt(h, e.addr) in t.active && e.addr in t.heap && t.heap[e.addr] == Restart(h[e.addr], now)
    else h[e.addr].sequence in t.deleted
  }

  /** reset has dealt with all but the last |left| due timers. */
  ghost predicate Settled(p: Pass, t: State)
  {
    t.phase.Resetting? ==> forall i :: 0 <= i < |p.due| - |t.phase.left| ==> Fate(p.heap, p.due[i], p.now, t)
  }

  lemma FateKept(h: Heap, e: Entry, now: int, t: State, u: State)
    requires Fate(h, e, now, t)
    requires u.canceling == t.canceling && t.deleted <= u.deleted && t.active <= u.active
    requires e.addr in t.heap && IdAt(h, e.addr) in t.active ==> e.addr in u.heap && u.heap[e.addr] == t.heap[e.addr]
    ensures Fate(h, e, now, u)
  {
  }

  lemma ResetFates(t: State)
    requires t.phase.Resetting? && t.phase.left != [] && t.phase.left[0].addr in t.heap
    ensures var (u, e) := (DoResetOne(t), t.phase.left[0]);
      && Fate(t.heap, e, t.phase.now, u)
      && u.canceling == t.canceling && t.deleted <= u.deleted && t.active <= u.active
      && (forall a :: a in t.heap && a != e.addr ==> a in u.heap && u.heap[a] == t.heap[a])
      && u.phase.Resetting? && u.phase.now == t.phase.now && u.phase.left == t.phase.left[1..]
      && u.ran == t.ran && u.passes == t.passes && u.created == t.created
      && u.heap == Settle(t, e.addr, t.phase.now).heap
  {
  }

  lemma DueDistinct(p: Pass, i: nat, j: nat)
    requires GoodPass(p) && i < j < |p.due|
    ensures p.due[i].addr != p.due[j].addr
  {
    assert Less(p.due[i], p.due[j]) && p.due[i] in p.due && p.due[j] in p.due;
  }

  lemma ResetSettled(p: Pass, t: State)
    requires GoodPass(p) && PhaseOf(p, t.phase, t.heap) && Settled(p, t)
    ensures Settled(p, Step(t, ResetOne))
  {
    if t.phase.Resetting? && t.phase.left != [] {
      var (left, u) := (t.phase.left, DoResetOne(t));
      var n := |p.due| - |left|;
      assert left[0] == p.due[n] && left[0] in left;
      ResetFates(t);
      forall i | 0 <= i < n ensures Fate(p.heap, p.due[i], p.now, u) {
        DueDistinct(p, i, n);
        FateKept(p.heap, p.due[i], p.now, t, u);
      }
    }
  }

  lemma NewSettled(p: Pass, t: State, a: Address, when: int, interval: real)
    requires Settled(p, t)
    ensures Settled(p, Step(t, New(a, when, interval)))
  {
    if t.phase.Resetting? {
      forall i | 0 <= i < |p.due| - |t.phase.left| ensures Fate(p.heap, p.due[i], p.now, DoNew(t, a, when, interval)) {
        FateKept(p.heap, p.due[i], p.now, t, DoNew(t, a, when, interval));
      }
    }
  }

  lemma StepSettled(p: Pass, t: State, e: Event)
    requires GoodPass(p) && PhaseOf(p, t.phase, t.heap) && Settled(p, t) && !e.Begin?
    ensures Settled(p, Step(t, e))
  {
    match e
    case ResetOne => ResetSettled(p, t);
    case New(a, when, interval) => NewSettled(p, t, a, when, interval);
    case _ =>
  }

  lemma {:induction false} ExecSettled(s: State, now: int, es: seq<Event>)
    requires Inv(s) && s.phase.Idle? && NoBegin(es)
    ensures Settled(PassAt(s, now), Exec(DoBegin(s, now), es))
  {
    if es != [] {
      var n := |es| - 1;
      assert es[n] in es;
      BeginPass(s, now);
      ExecPass(s, now, es[..n]);
      ExecSettled(s, now, es[..n]);
      StepSettled(PassAt(s, now), Exec(DoBegin(s, now), es[..n]), es[n]);
    }
  }

  /** Somewhere in es a callback, or other code of the loop, really cancels id. */
  ghost predicate CancelledIn(s: State, es: seq<Event>, id: TimerId)
  {
    es != [] &&
    (CancelledIn(s, es[..|es| - 1], id) || (es[|es| - 1] == Cancel(id) && CanAct(Exec(s, es[..|es| - 1]))))
  }

  lemma StepCanceling(t: State, e: Event, id: TimerId)
    requires Inv(t) && !t.phase.Idle? && !e.Begin? && (t.phase.Running? ==> id !in t.active)
    ensures id in Step(t, e).canceling <==> id in t.canceling || (e == Cancel(id) && CanAct(t))
  {
  }

  lemma IdleStays(t: State, e: Event)
    requires t.phase.Idle? && !e.Begin?
    ensures Step(t, e).phase.Idle?
  {
  }

  lemma {:induction false} CancelingExact(s: State, now: int, es: seq<Event>, e: Entry)
    requires Inv(s) && s.phase.Idle? && NoBegin(es) && e in Due(s, now) && e.addr in s.heap
    ensures var (t, id) := (Exec(DoBegin(s, now), es), IdAt(s.heap, e.addr));
      t.phase.Idle? || (id in t.canceling <==> CancelledIn(DoBegin(s, now), es, id))
  {
    if es != [] {
      var n := |es| - 1;
      assert es[n] in es;
      CancelingExact(s, now, es[..n], e);
      ExecPass(s, now, es[..n]);
      var t := Exec(DoBegin(s, now), es[..n]);
      if t.phase.Idle? {
        IdleStays(t, es[n]);
      } else {
        assert t.phase.Running? ==> e in Batch(t);
        StepCanceling(t, es[n], IdAt(s.heap, e.addr));
      }
    }
  }

  /** The timer, as it was, is queued again at now plus its interval. */
  ghost predicate Requeued(was: Timer, a: Address, now: int, t: State)
  {
    && a in t.heap && IsAfter(now, was.interval, t.heap[a].expiration)
    && t.heap[a].sequence == was.sequence && t.heap[a].interval == was.interval
    && TimerId(a, was.sequence) in t.active && Entry(t.heap[a].expiration, a) in t.timers
  }

  /**
   * When handleRead is about to return, a repeater of the batch that nobody
   * cancelled during the pass is queued at now plus its interval in whole
   * microseconds, otherwise unchanged, and every other timer of the batch is
   * deleted.
   */
  lemma HandleReadRequeuesSurvivors(s: State, now: int, es: seq<Event>, e: Entry)
    requires Inv(s) && s.phase.Idle? && NoBegin(es) && e in s.timers && e.when <= now
    requires Exec(DoBegin(s, now), es).phase.Resetting? && Exec(DoBegin(s, now), es).phase.left == []
    ensures var (t, id) := (Exec(DoBegin(s, now), es), IdAt(s.heap, e.addr));
      if s.heap[e.addr].interval > 0.0 && !CancelledIn(DoBegin(s, now), es, id) then
        Requeued(s.heap[e.addr], e.addr, now, t)
      else id.sequence in t.deleted
  {
    AddTimeIsAfter(now, s.heap[e.addr].interval);
    DueEntries(s, now);
    ExecPass(s, now, es);
    ExecSettled(s, now, es);
    var i :| 0 <= i < |Due(s, now)| && Due(s, now)[i] == e;
    assert Fate(s.heap, Due(s, now)[i], now, Exec(DoBegin(s, now), es));
    CancelingExact(s, now, es, e);
  }

  /** Timer id is queued, as it is in h. */
  ghost predicate QueuedAs(h: Heap, id: TimerId, t: State)
  {
    id in t.active && id.addr in h && id.addr in t.heap && t.heap[id.addr] == h[id.addr]
  }

  lemma CancelKeepsOthers(s: State, id: TimerId, other: TimerId)
    requires Inv(s) && id in s.active && other != id
    ensures QueuedAs(s.heap, id, Step(s, Cancel(other)))
  {
    if other in s.active {
      assert IdAt(s.heap, other.addr) == other;
    }
  }

  lemma ResetKeepsQueued(s: State, id: TimerId)
    requires Held(s.heap, Batch(s), s.active) && Agree(s.heap, s.timers, s.active) && id in s.active
    ensures QueuedAs(s.heap, id, Step(s, ResetOne))
  {
    if s.phase.Resetting? && s.phase.left != [] {
      assert s.phase.left[0] in s.phase.left;
      ResetFates(s);
    }
  }

  lemma StepKeepsQueued(s: State, e: Event, id: TimerId)
    requires Inv(s) && id in s.active && e != Cancel(id) && !e.Begin?
    ensures QueuedAs(s.heap, id, Step(s, e))
  {
    match e
    case Cancel(other) => CancelKeepsOthers(s, id, other);
    case ResetOne => ResetKeepsQueued(s, id);
    case _ =>
  }

  /** A queued timer, added by a callback or not, waits unchanged until it is cancelled or a later pass takes it. */
  lemma {:induction false} QueuedTimersWait(s: State, es: seq<Event>, id: TimerId)
    requires Inv(s) && id in s.active && NoBegin(es) && Cancel(id) !in es
    ensures QueuedAs(s.heap, id, Exec(s, es))
    ensures Entry(s.heap[id.addr].expiration, id.addr) in Exec(s, es).timers
  {
    ExecInv(s, es);
    if es != [] {
      var n := |es| - 1;
      assert es[n] in es;
      QueuedTimersWait(s, es[..n], id);
      ExecInv(s, es[..n]);
      StepKeepsQueued(Exec(s, es[..n]), es[n], id);
    }
  }

  // ---------------------------------------------------------------------------
  // At most once a pass; a one-shot timer at most once

  /** Two runs of one timer are in different passes, and it repeats. */
  ghost predicate Spaced(ran: seq<Run>)
  {
    forall i, j :: 0 <= i < j < |ran| && ran[i].sequence == ran[j].sequence ==>
      ran[i].pass < ran[j].pass && ran[i].repeats && ran[j].repeats
  }

  /** Entries of the batch already called and still to be settled. */
  function Spent(s: State): seq<Entry>
  {
    match s.phase
    case Idle => []
    case Running(_, batch, next) => if next <= |batch| then batch[..next] else batch
    case Resetting(_, left, _) => left
  }

  /** A live timer that has run repeats, or is about to be settled. */
  ghost predicate RunsOfLive(h: Heap, ran: seq<Run>, spent: seq<Entry>, created: nat)
  {
    && (forall r :: r in ran ==> r.sequence < created)
    && forall a, r :: a in h && r in ran && h[a].sequence == r.sequence ==>
         r.repeats == h[a].Repeat() && (h[a].Repeat() || Entry(h[a].expiration, a) in spent)
  }

  /** What is still to be called has not run in this pass. */
  ghost predicate NotYetRun(h: Heap, ran: seq<Run>, todo: seq<Entry>, pass: nat)
  {
    && (forall r :: r in ran ==> r.pass <= pass)
    && forall e, r :: e in todo && r in ran && e.addr in h && h[e.addr].sequence == r.sequence ==> r.pass < pass && r.repeats
  }

  function ToDo(s: State): seq<Entry>
  {
    if s.phase.Running? && s.phase.next <= |s.phase.batch| then s.phase.batch[s.phase.next..] else []
  }

  ghost predicate OnceInv(s: State)
  {
    && Spaced(s.ran)
    && RunsOfLive(s.heap, s.ran, Spent(s), s.created)
    && NotYetRun(s.heap, s.ran, ToDo(s), s.passes)
  }

  lemma BeginOnce(s: State, now: int)
    requires Inv(s) && OnceInv(s)
    ensures OnceInv(Step(s, Begin(now)))
  {
  }

  /** Calling e, the first of todo, whose timer differs from those of the rest. */
  lemma CallSpaced(h: Heap, ran: seq<Run>, todo: seq<Entry>, pass: nat, r: Run)
    requires Spaced(ran) && NotYetRun(h, ran, todo, pass) && todo != []
    requires todo[0].addr in h && r == Run(h[todo[0].addr].sequence, pass, h[todo[0].addr].Repeat())
    requires forall q :: q in ran && q.sequence == r.sequence ==> q.repeats == r.repeats
    requires forall x :: x in todo[1..] && x.addr in h ==> h[x.addr].sequence != r.sequence
    ensures Spaced(ran + [r]) && NotYetRun(h, ran + [r], todo[1..], pass)
  {
    assert todo[0] in todo;
    assert forall x :: x in todo[1..] ==> x in todo;
    assert forall i :: 0 <= i < |ran| ==> ran[i] in ran;
  }

  /** The timers of the rest of the batch are others. */
  lemma OthersToDo(h: Heap, todo: seq<Entry>, created: nat, deleted: seq<nat>)
    requires Sorted(todo) && todo != [] && Numbered(h, created, deleted)
    requires forall e :: e in todo ==> e.addr in h && h[e.addr].expiration == e.when
    ensures forall x :: x in todo[1..] ==> h[x.addr].sequence != h[todo[0].addr].sequence
    ensures forall b :: b in h && h[b].sequence == h[todo[0].addr].sequence ==> b == todo[0].addr
    ensures h[todo[0].addr].sequence < created
  {
    var e := todo[0];
    assert e in todo;
    forall b | b in h && h[b].sequence == h[e.addr].sequence ensures b == e.addr {
      assert SameNumber(h, b, e.addr);
    }
    forall x | x in todo[1..] ensures h[x.addr].sequence != h[e.addr].sequence {
      FirstLess(todo, x);
      assert x in todo;
    }
  }

  lemma CallOnce(s: State)
    requires Sorted(Batch(s)) && Held(s.heap, Batch(s), s.active) && Numbered(s.heap, s.created, s.deleted)
    requires OnceInv(s)
    ensures OnceInv(Step(s, Call))
  {
    if s.phase.Running? && s.phase.next < |s.phase.batch| {
      var (batch, k, h) := (s.phase.batch, s.phase.next, s.heap);
      var todo := batch[k..];
      assert forall e :: e in todo ==> e in batch;
      OthersToDo(h, todo, s.created, s.deleted);
      CallParts(h, s.ran, batch, k, s.created, s.passes);
    }
  }

  lemma CallParts(h: Heap, ran: seq<Run>, batch: seq<Entry>, k: nat, created: nat, pass: nat)
    requires k < |batch| && batch[k].addr in h && h[batch[k].addr].expiration == batch[k].when
    requires Spaced(ran) && RunsOfLive(h, ran, batch[..k], created) && NotYetRun(h, ran, batch[k..], pass)
    requires forall x :: x in batch[k..][1..] ==> x.addr in h && h[x.addr].sequence != h[batch[k].addr].sequence
    requires forall b :: b in h && h[b].sequence == h[batch[k].addr].sequence ==> b == batch[k].addr
    requires h[batch[k].addr].sequence < created
    ensures var r := Run(h[batch[k].addr].sequence, pass, h[batch[k].addr].Repeat());
      && Spaced(ran + [r]) && RunsOfLive(h, ran + [r], batch[..k + 1], created)
      && NotYetRun(h, ran + [r], batch[k + 1..], pass)
  {
    var e := batch[k];
    var r := Run(h[e.addr].sequence, pass, h[e.addr].Repeat());
    assert batch[..k + 1] == batch[..k] + [e];
    assert batch[k..][0] == e && batch[k..][1..] == batch[k + 1..];
    CallLive(h, ran, batch[..k], created, e, r);
    CallSpaced(h, ran, batch[k..], pass, r);
  }

  lemma CallLive(h: Heap, ran: seq<Run>, spent: seq<Entry>, created: nat, e: Entry, r: Run)
    requires RunsOfLive(h, ran, spent, created) && r.sequence < created
    requires e.addr in h && e.when == h[e.addr].expiration
    requires r.sequence == h[e.addr].sequence && r.repeats == h[e.addr].Repeat()
    requires forall b :: b in h && h[b].sequence == r.sequence ==> b == e.addr
    ensures RunsOfLive(h, ran + [r], spent + [e], created)
  {
  }

  lemma RunsKept(h: Heap, h': Heap, ran: seq<Run>, spent: seq<Entry>, spent': seq<Entry>, created: nat, created': nat)
    requires RunsOfLive(h, ran, spent, created) && created <= created'
    requires forall a :: a in h' ==> h'[a].sequence >= created || (a in h && SameRun(h[a], h'[a]))
    requires forall a :: a in h' && a in h && !h[a].Repeat() && Entry(h[a].expiration, a) in spent ==>
               Entry(h'[a].expiration, a) in spent'
    ensures RunsOfLive(h', ran, spent', created')
  {
  }

  predicate SameRun(t: Timer, u: Timer)
  {
    u.sequence == t.sequence && u.interval == t.interval
  }

  lemma NewOnce(s: State, a: Address, when: int, interval: real)
    requires Inv(s) && OnceInv(s)
    ensures OnceInv(Step(s, New(a, when, interval)))
  {
    if a !in s.heap {
      var t := DoNew(s, a, when, interval);
      RunsKept(s.heap, t.heap, s.ran, Spent(s), Spent(s), s.created, t.created);
      assert forall e :: e in ToDo(s) ==> e in Batch(s);
    }
  }

  lemma CancelOnce(s: State, id: TimerId)
    requires Inv(s) && OnceInv(s)
    ensures OnceInv(Step(s, Cancel(id)))
  {
    var t := DoCancel(s, id);
    RunsKept(s.heap, t.heap, s.ran, Spent(s), Spent(s), s.created, t.created);
  }

  /** The timer at the front of left repeats, or it is deleted. */
  lemma SettleRuns(s: State, left: seq<Entry>, now: int)
    requires RunsOfLive(s.heap, s.ran, left, s.created) && left != [] && left[0].addr in s.heap
    ensures RunsOfLive(Settle(s, left[0].addr, now).heap, s.ran, left[1..], s.created)
  {
    var a := left[0].addr;
    var h := Settle(s, a, now).heap;
    assert left == [left[0]] + left[1..];
    assert a in h ==> s.heap[a].Repeat() && SameRun(s.heap[a], h[a]);
    RunsKept(s.heap, h, s.ran, left, left[1..], s.created, s.created);
  }

  lemma ResetOnce(s: State)
    requires Inv(s) && OnceInv(s)
    ensures OnceInv(Step(s, ResetOne))
  {
    if s.phase.Resetting? && s.phase.left != [] {
      var left := s.phase.left;
      assert left[0] in left;
      ResetFates(s);
      SettleRuns(s, left, s.phase.now);
    }
  }

  lemma EndOnce(s: State)
    requires Inv(s) && OnceInv(s)
    ensures OnceInv(Step(s, EndCalls)) && OnceInv(Step(s, EndReset))
  {
    if s.phase.Running? && s.phase.next == |s.phase.batch| {
      assert s.phase.batch[..s.phase.next] == s.phase.batch;
    }
  }

  lemma AddOnce(s: State, a: Address)
    requires OnceInv(s)
    ensures OnceInv(Step(s, Add(a)))
  {
    var t := DoAdd(s, a);
    assert t.ran == s.ran && t.heap == s.heap && t.phase == s.phase && t.created == s.created && t.passes == s.passes;
  }

  lemma StepOnce(s: State, e: Event)
    requires Inv(s) && OnceInv(s)
    ensures OnceInv(Step(s, e))
  {
    match e
    case New(a, when, interval) => NewOnce(s, a, when, interval);
    case Add(a) => AddOnce(s, a);
    case Cancel(id) => CancelOnce(s, id);
    case Begin(now) => BeginOnce(s, now);
    case Call => CallOnce(s);
    case EndCalls => EndOnce(s);
    case ResetOne => ResetOnce(s);
    case EndReset => EndOnce(s);
  }

  /** In every run, no timer runs twice in a pass, and a one-shot timer runs once at most. */
  lemma {:induction false} TimersRunOnce(es: seq<Event>)
    ensures OnceInv(Exec(Init, es)) && Spaced(Exec(Init, es).ran)
  {
    if es != [] {
      var n := |es| - 1;
      TimersRunOnce(es[..n]);
      ExecInv(Init, es[..n]);
      StepOnce(Exec(Init, es[..n]), es[n]);
    }
  }

  // ---------------------------------------------------------------------------
  // When timers run

  /** What addTimer was asked for. */
  datatype Birth = Birth(when: int, interval: real)

  function BornNow(s: State, e: Event): seq<Birth>
  {
    if e.New? && e.addr !in s.heap then [Birth(e.when, e.interval)] else []
  }

  /** What addTimer was asked for in a run, by number of the timer. */
  ghost function Births(es: seq<Event>): seq<Birth>
  {
    if es == [] then [] else Births(es[..|es| - 1]) + BornNow(Exec(Init, es[..|es| - 1]), es[|es| - 1])
  }

  function StartedNow(s: State, e: Event): seq<int>
  {
    if e.Begin? && s.phase.Idle? then [e.now] else []
  }

  /** The times at which handleRead began in a run, by number of the pass. */
  ghost function Starts(es: seq<Event>): seq<int>
  {
    if es == [] then [] else Starts(es[..|es| - 1]) + StartedNow(Exec(Init, es[..|es| - 1]), es[|es| - 1])
  }

  /** Whole microseconds in a number of seconds. */
  function Micros(seconds: real): int
  {
    (seconds * 1_000_000.0).Floor
  }

  lemma RestartIsMicros(t: Timer, now: int)
    requires t.Repeat()
    ensures Restart(t, now).expiration == now + Micros(t.interval) && Micros(t.interval) >= 0
  {
    AddTimeIsAfter(now, t.interval);
    var x := t.interval * 1_000_000.0;
    assert x.Floor as real <= x < x.Floor as real + 1.0;
  }

  predicate HasRun(ran: seq<Run>, n: nat)
  {
    exists i :: 0 <= i < |ran| && ran[i].sequence == n
  }

  /** A live timer is as it was asked for: the interval, the first expiration, and none earlier than that. */
  ghost predicate AsBorn(h: Heap, ran: seq<Run>, births: seq<Birth>)
  {
    forall a :: a in h ==>
      && h[a].sequence < |births| && h[a].interval == births[h[a].sequence].interval
      && births[h[a].sequence].when <= h[a].expiration
      && (births[h[a].sequence].when == h[a].expiration || HasRun(ran, h[a].sequence))
  }

  /** No run is in a pass that began before the time asked for; only repeaters repeat. */
  ghost predicate NoneEarly(ran: seq<Run>, births: seq<Birth>, starts: seq<int>)
  {
    forall i :: 0 <= i < |ran| ==>
      && ran[i].sequence < |births| && 1 <= ran[i].pass <= |starts|
      && births[ran[i].sequence].when <= starts[ran[i].pass - 1]
      && (ran[i].repeats <==> births[ran[i].sequence].interval > 0.0)
  }

  /** Two runs of one timer are in passes that began its interval or more apart. */
  ghost predicate IntervalApart(ran: seq<Run>, births: seq<Birth>, starts: seq<int>)
    requires NoneEarly(ran, births, starts)
  {
    forall i, j :: 0 <= i < j < |ran| && ran[i].sequence == ran[j].sequence ==>
      starts[ran[i].pass - 1] + Micros(births[ran[i].sequence].interval) <= starts[ran[j].pass - 1]
  }

  /** The next expiration of a timer that has run, once it is settled, is its interval or more after the run. */
  ghost predicate NextApart(h: Heap, ran: seq<Run>, spent: seq<Entry>, births: seq<Birth>, starts: seq<int>)
    requires NoneEarly(ran, births, starts)
  {
    forall a, i :: a in h && 0 <= i < |ran| && ran[i].sequence == h[a].sequence ==>
      if Entry(h[a].expiration, a) in spent then starts != [] && starts[ran[i].pass - 1] <= starts[|starts| - 1]
      else starts[ran[i].pass - 1] + Micros(h[a].interval) <= h[a].expiration
  }

  /** Whatever is still to be settled has run. */
  ghost predicate SpentHasRun(h: Heap, ran: seq<Run>, spent: seq<Entry>)
  {
    forall e :: e in spent && e.addr in h ==> HasRun(ran, h[e.addr].sequence)
  }

  /** During a pass the last start is its time, and its timers are due then. */
  ghost predicate Clock(s: State, starts: seq<int>)
  {
    && |starts| == s.passes
    && (!s.phase.Idle? ==> starts != [] && s.phase.now == starts[|starts| - 1])
    && (!s.phase.Idle? ==> forall e :: e in Batch(s) ==> e.when <= s.phase.now)
  }

  ghost predicate TimesInv(s: State, births: seq<Birth>, starts: seq<int>)
  {
    && |births| == s.created && Clock(s, starts)
    && AsBorn(s.heap, s.ran, births) && NoneEarly(s.ran, births, starts)
    && IntervalApart(s.ran, births, starts) && NextApart(s.heap, s.ran, Spent(s), births, starts)
    && SpentHasRun(s.heap, s.ran, Spent(s))
  }

  lemma BornTimes(h: Heap, ran: seq<Run>, spent: seq<Entry>, births: seq<Birth>, starts: seq<int>, a: Address, b: Birth)
    requires AsBorn(h, ran, births) && NoneEarly(ran, births, starts) && IntervalApart(ran, births, starts)
    requires NextApart(h, ran, spent, births, starts) && SpentHasRun(h, ran, spent)
    requires a !in h && forall e :: e in spent ==> e.addr in h
    ensures var (h', more) := (h[a := Timer(b.when, b.interval, |births|)], births + [b]);
      && AsBorn(h', ran, more) && NoneEarly(ran, more, starts) && IntervalApart(ran, more, starts)
      && NextApart(h', ran, spent, more, starts) && SpentHasRun(h', ran, spent)
  {
    assert forall n :: 0 <= n < |births| ==> (births + [b])[n] == births[n];
  }

  /** A step that leaves the pass where it is. */
  predicate SamePass(s: State, t: State)
  {
    t.phase == s.phase && t.ran == s.ran && t.passes == s.passes
  }

  lemma NewIs(s: State, e: Event)
    requires e.New?
    ensures var t := Step(s, e);
      if e.addr in s.heap then t == s
      else SamePass(s, t) && t.heap == s.heap[e.addr := Timer(e.when, e.interval, s.created)] && t.created == s.created + 1
  {
  }

  lemma BornTimesInv(s: State, t: State, a: Address, b: Birth, births: seq<Birth>, starts: seq<int>)
    requires TimesInv(s, births, starts) && SamePass(s, t) && a !in s.heap && t.created == s.created + 1
    requires t.heap == s.heap[a := Timer(b.when, b.interval, s.created)] && forall e :: e in Spent(s) ==> e.addr in s.heap
    ensures TimesInv(t, births + [b], starts)
  {
    BornTimes(s.heap, s.ran, Spent(s), births, starts, a, b);
  }

  lemma NewTimes(s: State, e: Event, births: seq<Birth>, starts: seq<int>)
    requires Held(s.heap, Batch(s), s.active) && TimesInv(s, births, starts) && e.New?
    ensures TimesInv(Step(s, e), births + BornNow(s, e), starts)
  {
    NewIs(s, e);
    if e.addr in s.heap {
      assert births + [] == births;
    } else {
      assert forall x :: x in Spent(s) ==> x in Batch(s);
      BornTimesInv(s, Step(s, e), e.addr, Birth(e.when, e.interval), births, starts);
    }
  }

  lemma StartTimes(h: Heap, ran: seq<Run>, births: seq<Birth>, starts: seq<int>, now: int)
    requires NoneEarly(ran, births, starts) && IntervalApart(ran, births, starts) && NextApart(h, ran, [], births, starts)
    ensures NoneEarly(ran, births, starts + [now]) && IntervalApart(ran, births, starts + [now])
    ensures NextApart(h, ran, [], births, starts + [now])
  {
    assert forall k :: 0 <= k < |starts| ==> (starts + [now])[k] == starts[k];
  }

  lemma BeginTimes(s: State, now: int, births: seq<Birth>, starts: seq<int>)
    requires Sorted(s.timers) && TimesInv(s, births, starts) && s.phase.Idle?
    ensures TimesInv(Step(s, Begin(now)), births, starts + [now])
  {
    DueEntries(s, now);
    assert Batch(DoBegin(s, now)) == Due(s, now) && Spent(DoBegin(s, now)) == [];
    StartTimes(s.heap, s.ran, births, starts, now);
  }

  lemma NotSpent(s: State)
    requires Sorted(Batch(s)) && s.phase.Running? && s.phase.next < |s.phase.batch|
    ensures s.phase.batch[s.phase.next] !in Spent(s)
  {
    forall i | 0 <= i < s.phase.next ensures s.phase.batch[i] != s.phase.batch[s.phase.next] {
      assert Less(s.phase.batch[i], s.phase.batch[s.phase.next]);
    }
  }

  /** The timer that is called has waited for its time and, if it has run before, for its interval. */
  lemma CalledInTime(h: Heap, ran: seq<Run>, spent: seq<Entry>, e: Entry, births: seq<Birth>, starts: seq<int>)
    requires AsBorn(h, ran, births) && NoneEarly(ran, births, starts) && IntervalApart(ran, births, starts)
    requires NextApart(h, ran, spent, births, starts)
    requires e !in spent && e.addr in h && h[e.addr].expiration == e.when
    requires starts != [] && e.when <= starts[|starts| - 1]
    ensures var more := ran + [Run(h[e.addr].sequence, |starts|, h[e.addr].Repeat())];
      NoneEarly(more, births, starts) && IntervalApart(more, births, starts)
  {
  }

  /** From then on it waits to be settled. */
  lemma CalledIsSpent(h: Heap, ran: seq<Run>, spent: seq<Entry>, e: Entry, births: seq<Birth>, starts: seq<int>)
    requires AsBorn(h, ran, births) && NoneEarly(ran, births, starts) && NextApart(h, ran, spent, births, starts)
    requires SpentHasRun(h, ran, spent) && e.addr in h && h[e.addr].expiration == e.when && starts != []
    requires forall a :: a in h && h[a].sequence == h[e.addr].sequence ==> a == e.addr
    requires forall i :: 0 <= i < |ran| && ran[i].sequence == h[e.addr].sequence ==> starts[ran[i].pass - 1] <= starts[|starts| - 1]
    requires NoneEarly(ran + [Run(h[e.addr].sequence, |starts|, h[e.addr].Repeat())], births, starts)
    ensures var more := ran + [Run(h[e.addr].sequence, |starts|, h[e.addr].Repeat())];
      AsBorn(h, more, births) && NextApart(h, more, spent + [e], births, starts) && SpentHasRun(h, more, spent + [e])
  {
    var more := ran + [Run(h[e.addr].sequence, |starts|, h[e.addr].Repeat())];
    forall n | HasRun(ran, n) || n == h[e.addr].sequence ensures HasRun(more, n) {
      HasRunSnoc(ran, Run(h[e.addr].sequence, |starts|, h[e.addr].Repeat()), n);
    }
  }

  lemma HasRunSnoc(ran: seq<Run>, r: Run, n: nat)
    ensures HasRun(ran + [r], n) <==> HasRun(ran, n) || r.sequence == n
  {
    assert (ran + [r])[|ran|] == r;
    if HasRun(ran, n) {
      var i :| 0 <= i < |ran| && ran[i].sequence == n;
      assert (ran + [r])[i] == ran[i];
    }
  }

  /** A timer that has not been called in this pass ran before it, at least its interval ago. */
  lemma EarlierRuns(s: State, e: Entry, births: seq<Birth>, starts: seq<int>)
    requires TimesInv(s, births, starts) && OnceInv(s) && s.phase.Running? && e in ToDo(s) && e !in Spent(s)
    requires e.addr in s.heap && s.heap[e.addr].expiration == e.when && e in Batch(s)
    ensures forall i :: 0 <= i < |s.ran| && s.ran[i].sequence == s.heap[e.addr].sequence ==>
      starts[s.ran[i].pass - 1] <= starts[|starts| - 1]
  {
    forall i | 0 <= i < |s.ran| && s.ran[i].sequence == s.heap[e.addr].sequence
      ensures starts[s.ran[i].pass - 1] <= starts[|starts| - 1]
    {
      assert s.ran[i] in s.ran && s.ran[i].repeats;
      RestartIsMicros(s.heap[e.addr], 0);
    }
  }

  lemma CallTimes(s: State, births: seq<Birth>, starts: seq<int>)
    requires Sorted(Batch(s)) && Held(s.heap, Batch(s), s.active) && Numbered(s.heap, s.created, s.deleted)
    requires OnceInv(s) && TimesInv(s, births, starts)
    ensures TimesInv(Step(s, Call), births, starts)
  {
    if s.phase.Running? && s.phase.next < |s.phase.batch| {
      var k, e := s.phase.next, s.phase.batch[s.phase.next];
      assert e in s.phase.batch && s.phase.batch[k..][0] == e;
      NotSpent(s);
      SameTimer(s, e.addr);
      EarlierRuns(s, e, births, starts);
      CalledInTime(s.heap, s.ran, Spent(s), e, births, starts);
      CalledIsSpent(s.heap, s.ran, Spent(s), e, births, starts);
      SpentNext(s, births, starts);
    }
  }

  lemma SameTimer(s: State, a: Address)
    requires Numbered(s.heap, s.created, s.deleted) && a in s.heap
    ensures forall b :: b in s.heap && s.heap[b].sequence == s.heap[a].sequence ==> b == a
  {
    forall b | b in s.heap && s.heap[b].sequence == s.heap[a].sequence ensures b == a {
      assert SameNumber(s.heap, b, a);
    }
  }

  lemma SpentNext(s: State, births: seq<Birth>, starts: seq<int>)
    requires s.phase.Running? && s.phase.next < |s.phase.batch| && |births| == s.created && Clock(s, starts)
    requires s.phase.batch[s.phase.next].addr in s.heap
    requires var e := s.phase.batch[s.phase.next];
      var more := s.ran + [Run(s.heap[e.addr].sequence, |starts|, s.heap[e.addr].Repeat())];
      && AsBorn(s.heap, more, births) && NoneEarly(more, births, starts) && IntervalApart(more, births, starts)
      && NextApart(s.heap, more, Spent(s) + [e], births, starts) && SpentHasRun(s.heap, more, Spent(s) + [e])
    ensures TimesInv(Step(s, Call), births, starts)
  {
    assert Spent(Step(s, Call)) == Spent(s) + [s.phase.batch[s.phase.next]];
  }

  /** The front of left is queued for its next time. */
  lemma RestartTimes(h: Heap, ran: seq<Run>, left: seq<Entry>, births: seq<Birth>, starts: seq<int>)
    requires AsBorn(h, ran, births) && NoneEarly(ran, births, starts)
    requires NextApart(h, ran, left, births, starts) && SpentHasRun(h, ran, left)
    requires left != [] && left[0].addr in h && left[0].when == h[left[0].addr].expiration && h[left[0].addr].Repeat()
    requires starts != [] && left[0].when <= starts[|starts| - 1]
    requires forall x :: x in left[1..] ==> x.addr != left[0].addr
    ensures var h' := h[left[0].addr := Restart(h[left[0].addr], starts[|starts| - 1])];
      AsBorn(h', ran, births) && NextApart(h', ran, left[1..], births, starts) && SpentHasRun(h', ran, left[1..])
  {
    RestartIsMicros(h[left[0].addr], starts[|starts| - 1]);
    assert left == [left[0]] + left[1..] && left[0] in left;
  }

  /** Or it is deleted. */
  lemma DropTimes(h: Heap, ran: seq<Run>, left: seq<Entry>, births: seq<Birth>, starts: seq<int>)
    requires AsBorn(h, ran, births) && NoneEarly(ran, births, starts)
    requires NextApart(h, ran, left, births, starts) && SpentHasRun(h, ran, left) && left != []
    ensures var h' := h - {left[0].addr};
      AsBorn(h', ran, births) && NextApart(h', ran, left[1..], births, starts) && SpentHasRun(h', ran, left[1..])
  {
    assert left == [left[0]] + left[1..];
  }

  lemma ResetTimes(s: State, births: seq<Birth>, starts: seq<int>)
    requires Inv(s) && TimesInv(s, births, starts)
    ensures TimesInv(Step(s, ResetOne), births, starts)
  {
    if s.phase.Resetting? && s.phase.left != [] {
      var left := s.phase.left;
      assert left[0] in left;
      LeaveBatch(s.heap, s.unadded, s.active, left);
      ResetFates(s);
      if s.heap[left[0].addr].Repeat() {
        RestartTimes(s.heap, s.ran, left, births, starts);
      }
      DropTimes(s.heap, s.ran, left, births, starts);
      assert forall x :: x in left[1..] ==> x in left;
    }
  }

  lemma EndTimes(s: State, births: seq<Birth>, starts: seq<int>)
    requires Inv(s) && TimesInv(s, births, starts)
    ensures TimesInv(Step(s, EndCalls), births, starts) && TimesInv(Step(s, EndReset), births, starts)
  {
    if s.phase.Running? && s.phase.next == |s.phase.batch| {
      assert s.phase.batch[..s.phase.next] == s.phase.batch;
    }
  }

  lemma FewerTimes(h: Heap, h': Heap, ran: seq<Run>, spent: seq<Entry>, births: seq<Birth>, starts: seq<int>)
    requires AsBorn(h, ran, births) && NoneEarly(ran, births, starts)
    requires NextApart(h, ran, spent, births, starts) && SpentHasRun(h, ran, spent)
    requires forall a :: a in h' ==> a in h && h'[a] == h[a]
    ensures AsBorn(h', ran, births) && NextApart(h', ran, spent, births, starts) && SpentHasRun(h', ran, spent)
  {
  }

  lemma ActIs(s: State, e: Event)
    requires e.Add? || e.Cancel?
    ensures var t := Step(s, e);
      SamePass(s, t) && t.created == s.created && forall a :: a in t.heap ==> a in s.heap && t.heap[a] == s.heap[a]
  {
  }

  lemma FewerTimesInv(s: State, t: State, births: seq<Birth>, starts: seq<int>)
    requires TimesInv(s, births, starts) && SamePass(s, t) && t.created == s.created
    requires forall a :: a in t.heap ==> a in s.heap && t.heap[a] == s.heap[a]
    ensures TimesInv(t, births, starts)
  {
    FewerTimes(s.heap, t.heap, s.ran, Spent(s), births, starts);
  }

  lemma ActTimes(s: State, e: Event, births: seq<Birth>, starts: seq<int>)
    requires TimesInv(s, births, starts) && (e.Add? || e.Cancel?)
    ensures TimesInv(Step(s, e), births, starts)
  {
    ActIs(s, e);
    FewerTimesInv(s, Step(s, e), births, starts);
  }

  lemma StepTimes(s: State, e: Event, births: seq<Birth>, starts: seq<int>)
    requires Inv(s) && OnceInv(s) && TimesInv(s, births, starts)
    ensures TimesInv(Step(s, e), births + BornNow(s, e), starts + StartedNow(s, e))
  {
    assert births + [] == births && starts + [] == starts;
    match e
    case New(_, _, _) => NewTimes(s, e, births, starts);
    case Add(_) => ActTimes(s, e, births, starts);
    case Cancel(_) => ActTimes(s, e, births, starts);
    case Begin(now) => if s.phase.Idle? { BeginTimes(s, now, births, starts); }
    case Call => CallTimes(s, births, starts);
    case EndCalls => EndTimes(s, births, starts);
    case ResetOne => ResetTimes(s, births, starts);
    case EndReset => EndTimes(s, births, starts);
  }

  /**
   * In every run, whatever the callbacks and the clock do: no timer runs in a pass
   * that began before the time it was asked for, a timer has runs in more than one
   * pass only if it was asked to repeat, and two runs of a repeater are in passes
   * that began at least its interval apart, in whole microseconds.
   */
  lemma {:induction false} TimersKeepTime(es: seq<Event>)
    ensures var (ran, births, starts) := (Exec(Init, es).ran, Births(es), Starts(es));
      NoneEarly(ran, births, starts) && IntervalApart(ran, births, starts)
    ensures AsBorn(Exec(Init, es).heap, Exec(Init, es).ran, Births(es))
  {
    ExecTimes(es);
  }

  lemma {:induction false} ExecTimes(es: seq<Event>)
    ensures TimesInv(Exec(Init, es), Births(es), Starts(es))
  {
    if es != [] {
      var n := |es| - 1;
      ExecTimes(es[..n]);
      ExecInv(Init, es[..n]);
      TimersRunOnce(es[..n]);
      StepTimes(Exec(Init, es[..n]), es[n], Births(es[..n]), Starts(es[..n]));
    }
  }

  // ---------------------------------------------------------------------------
  // Re-arming the timerfd

  /** Expirations and the clock are positive. */
  predicate Positive(e: Event)
  {
    (e.New? ==> e.when > 0) && (e.Begin? ==> e.now > 0)
  }

  ghost predicate AllPositive(es: seq<Event>)
  {
    forall e :: e in es ==> Positive(e)
  }

  ghost predicate PositiveTimes(s: State)
  {
    && (forall a :: a in s.heap ==> s.heap[a].expiration > 0)
    && (!s.phase.Idle? ==> s.phase.now > 0)
  }

  lemma StepPositive(s: State, e: Event)
    requires PositiveTimes(s) && Positive(e)
    ensures PositiveTimes(Step(s, e))
  {
  }

  /** The timerfd fires no later than the earliest timer; exactly then, if so required. */
  predicate Armed(s: State, exact: bool)
  {
    s.timers != [] ==>
      s.armed.Some? && (s.armed.value == s.timers[0].when || (!exact && s.armed.value < s.timers[0].when))
  }

  /** During a pass over a non-empty batch the timerfd may be unarmed: reset will see to it. */
  predicate WillBeArmed(s: State, exact: bool)
  {
    Batch(s) != [] || Armed(s, exact)
  }

  /** The timerfd is used up although timers remain and none of them is due. */
  predicate Premature(s: State, now: int)
  {
    s.timers != [] && Due(s, now) == [] && s.armed.Some? && s.armed.value <= now
  }

  lemma AddArmed(s: State, a: Address, exact: bool)
    requires Inv(s) && WillBeArmed(s, exact)
    ensures WillBeArmed(Step(s, Add(a)), exact)
  {
  }

  lemma {:induction false} ErasedFront(timers: seq<Entry>, e: Entry)
    requires Sorted(timers)
    ensures Erased(timers, e) != [] ==> timers != [] && timers[0].when <= Erased(timers, e)[0].when
  {
    if timers != [] && timers[0] == e && |timers| > 1 {
      assert Less(timers[0], timers[1]);
    }
  }

  lemma CancelArmed(s: State, id: TimerId)
    requires Inv(s) && WillBeArmed(s, false)
    ensures WillBeArmed(Step(s, Cancel(id)), false)
  {
    if CanAct(s) && id in s.active {
      ErasedFront(s.timers, Entry(s.heap[id.addr].expiration, id.addr));
    }
  }

  /** A pass begins with the timerfd armed as it should be or with timers to run, unless it is premature. */
  lemma BeginArmed(s: State, now: int, exact: bool)
    requires Inv(s) && s.phase.Idle? && Armed(s, exact)
    ensures WillBeArmed(DoBegin(s, now), exact) <==> !Premature(s, now)
    ensures exact ==> !Premature(s, now)
  {
    if s.timers != [] {
      DueExactly(s.timers, now);
    }
  }

  lemma ResetArmed(s: State, exact: bool)
    requires Inv(s) && PositiveTimes(s) && WillBeArmed(s, exact)
    ensures WillBeArmed(Step(s, ResetOne), exact)
  {
    if s.phase.Resetting? && s.phase.left != [] {
      ResetOneInv(s);
      SettleInv(s, s.phase.left, s.phase.now);
      var t := Settle(s, s.phase.left[0].addr, s.phase.now);
      if t.timers != [] {
        assert t.timers[0] in t.timers;
        SettlePositive(s, s.phase.left[0].addr, s.phase.now);
      }
    }
  }

  lemma SettlePositive(s: State, a: Address, now: int)
    requires PositiveTimes(s) && a in s.heap && now > 0
    ensures forall b :: b in Settle(s, a, now).heap ==> Settle(s, a, now).heap[b].expiration > 0
  {
  }

  lemma StepArmed(s: State, e: Event, exact: bool)
    requires Inv(s) && PositiveTimes(s) && WillBeArmed(s, exact)
    requires exact ==> !e.Cancel?
    requires e.Begin? && s.phase.Idle? ==> !Premature(s, e.now)
    ensures WillBeArmed(Step(s, e), exact)
  {
    match e
    case Add(a) => AddArmed(s, a, exact);
    case Cancel(id) => CancelArmed(s, id);
    case Begin(now) => if s.phase.Idle? { BeginArmed(s, now, exact); }
    case ResetOne => ResetArmed(s, exact);
    case _ =>
  }

  /** No pass of the run is premature. */
  ghost predicate NeverPremature(s: State, es: seq<Event>)
  {
    if es == [] then true
    else
      var t := Exec(s, es[..|es| - 1]);
      && NeverPremature(s, es[..|es| - 1])
      && (es[|es| - 1].Begin? && t.phase.Idle? ==> !Premature(t, es[|es| - 1].now))
  }

  lemma {:induction false} NoBeginNeverPremature(s: State, es: seq<Event>)
    requires NoBegin(es)
    ensures NeverPremature(s, es)
  {
    if es != [] {
      assert es[|es| - 1] in es;
      NoBeginNeverPremature(s, es[..|es| - 1]);
    }
  }

  /** As long as no pass is premature, the timerfd is armed in time whenever handleRead is not running. */
  lemma {:induction false} ExecArmed(s: State, es: seq<Event>)
    requires Inv(s) && PositiveTimes(s) && WillBeArmed(s, false) && AllPositive(es) && NeverPremature(s, es)
    ensures WillBeArmed(Exec(s, es), false) && PositiveTimes(Exec(s, es))
  {
    if es != [] {
      var before, e := es[..|es| - 1], es[|es| - 1];
      assert e in es;
      ExecArmed(s, before);
      ExecInv(s, before);
      StepPositive(Exec(s, before), e);
      StepArmed(Exec(s, before), e, false);
    }
  }

  lemma OnTimePassStaysArmed(s: State, now: int, es: seq<Event>)
    requires Inv(s) && PositiveTimes(s) && s.phase.Idle? && Armed(s, false) && now > 0 && !Premature(s, now)
    requires AllPositive(es) && NoBegin(es)
    ensures Exec(DoBegin(s, now), es).phase.Idle? ==> Armed(Exec(DoBegin(s, now), es), false)
  {
    var t := DoBegin(s, now);
    BeginInv(s, now);
    assert Step(s, Begin(now)) == t;
    StepPositive(s, Begin(now));
    BeginArmed(s, now, false);
    NoBeginNeverPremature(t, es);
    ExecArmed(t, es);
  }

  lemma PrematurePassStrands(s: State, now: int)
    requires Inv(s) && s.phase.Idle? && Armed(s, false) && Premature(s, now)
    ensures var t := Exec(DoBegin(s, now), [EndCalls, EndReset]); t.phase.Idle? && !Armed(t, false)
  {
    ExecTwo(DoBegin(s, now), EndCalls, EndReset);
  }

  /**
   * Re-arming, exactly. From an idle, armed state with positive times, a pass
   * leaves the timerfd armed for every timer that remains, whatever its callbacks
   * do, if and only if the pass is not premature.
   */
  lemma RearmedIff(s: State, now: int)
    requires Inv(s) && PositiveTimes(s) && s.phase.Idle? && Armed(s, false) && now > 0
    ensures (forall es | AllPositive(es) && NoBegin(es) ::
               Exec(DoBegin(s, now), es).phase.Idle? ==> Armed(Exec(DoBegin(s, now), es), false))
      <==> !Premature(s, now)
  {
    if Premature(s, now) {
      PrematurePassStrands(s, now);
      assert AllPositive([EndCalls, EndReset]) && NoBegin([EndCalls, EndReset]);
    } else {
      forall es | AllPositive(es) && NoBegin(es)
        ensures Exec(DoBegin(s, now), es).phase.Idle? ==> Armed(Exec(DoBegin(s, now), es), false)
      {
        OnTimePassStaysArmed(s, now, es);
      }
    }
  }

  /** Without cancels the timerfd is always armed for exactly the earliest timer, and no pass is premature. */
  lemma {:induction false} CancelFreeRunsStayArmed(es: seq<Event>)
    requires AllPositive(es) && forall e :: e in es ==> !e.Cancel?
    ensures var s := Exec(Init, es);
      WillBeArmed(s, true) && PositiveTimes(s) && (s.phase.Idle? ==> forall now :: !Premature(s, now))
  {
    if es != [] {
      var n := |es| - 1;
      var s := Exec(Init, es[..n]);
      assert es[n] in es;
      CancelFreeRunsStayArmed(es[..n]);
      ExecInv(Init, es[..n]);
      StepPositive(s, es[n]);
      StepArmed(s, es[n], true);
    }
    var t := Exec(Init, es);
    ExecInv(Init, es);
    if t.phase.Idle? {
      forall now ensures !Premature(t, now) {
        BeginArmed(t, now, true);
      }
    }
  }

  lemma {:induction false} ExecConcat(s: State, es: seq<Event>, fs: seq<Event>)
    ensures Exec(s, es + fs) == Exec(Exec(s, es), fs)
  {
    if fs == [] {
      assert es + fs == es;
    } else {
      ExecConcat(s, es, fs[..|fs| - 1]);
      assert (es + fs)[..|es + fs| - 1] == es + fs[..|fs| - 1];
    }
  }

  lemma ExecTwo(s: State, e: Event, f: Event)
    ensures Exec(s, [e, f]) == Step(Step(s, e), f)
  {
    ExecSnoc(s, [], e);
    ExecSnoc(s, [e], f);
    assert [] + [e] == [e] && [e] + [f] == [e, f];
  }

  function TwoTimers(): seq<Event>
  {
    [New(1, 10, 0.0), Add(1)] + [New(2, 100, 0.0), Add(2)]
  }

  function CancelAndFire(): seq<Event>
  {
    [Cancel(TimerId(1, 0)), Begin(10)] + [EndCalls, EndReset]
  }

  ghost predicate BothQueued(s: State)
  {
    && s.timers == [Entry(10, 1), Entry(100, 2)] && s.armed == Some(10) && s.phase.Idle?
    && TimerId(1, 0) in s.active && 1 in s.heap && s.heap[1].expiration == 10
  }

  lemma TwoTimersQueued()
    ensures BothQueued(Exec(Init, TwoTimers()))
  {
    var s := Exec(Init, [New(1, 10, 0.0), Add(1)]);
    ExecTwo(Init, New(1, 10, 0.0), Add(1));
    ExecConcat(Init, [New(1, 10, 0.0), Add(1)], [New(2, 100, 0.0), Add(2)]);
    SecondTimerQueued(s);
  }

  lemma SecondTimerQueued(s: State)
    requires s.timers == [Entry(10, 1)] && s.armed == Some(10) && s.phase.Idle? && TimerId(1, 0) in s.active
    requires s.heap.Keys == {1} && s.heap[1].expiration == 10
    ensures BothQueued(Exec(s, [New(2, 100, 0.0), Add(2)]))
  {
    ExecTwo(s, New(2, 100, 0.0), Add(2));
    var t := Step(s, New(2, 100, 0.0));
    assert t.timers[1..] == [] && Step(t, Add(2)).timers == [Entry(10, 1)] + Inserted([], Entry(100, 2));
  }

  lemma StrandedTail(s: State)
    requires BothQueued(s)
    ensures var t := Exec(s, CancelAndFire()); t.phase.Idle? && t.timers == [Entry(100, 2)] && t.armed == None
  {
    var t := Step(s, Cancel(TimerId(1, 0)));
    assert t.timers == [Entry(100, 2)];
    assert Due(t, 10) == [] && Step(t, Begin(10)).timers == [Entry(100, 2)];
    ExecTwo(s, Cancel(TimerId(1, 0)), Begin(10));
    ExecTwo(Step(t, Begin(10)), EndCalls, EndReset);
    ExecConcat(s, [Cancel(TimerId(1, 0)), Begin(10)], [EndCalls, EndReset]);
  }

  /** After the earliest timer is cancelled, its expiry finds nothing due and strands the rest. */
  lemma StrandedAfterCancel()
    ensures var (es, s) := (TwoTimers() + CancelAndFire(), Exec(Init, TwoTimers() + CancelAndFire()));
      AllPositive(es) && s.phase.Idle? && s.timers == [Entry(100, 2)] && s.armed == None
  {
    TwoTimersQueued();
    StrandedTail(Exec(Init, TwoTimers()));
    ExecConcat(Init, TwoTimers(), CancelAndFire());
  }

  // Intended: reset re-arms after its loop, whatever the batch was.

  ghost function IntendedStep(s: State, e: Event): State
  {
    var t := Step(s, e);
    if e.EndReset? && s.phase.Resetting? && t.phase.Idle? && t.timers != [] then t.(armed := Some(t.timers[0].when)) else t
  }

  ghost function IntendedExec(s: State, es: seq<Event>): State
  {
    if es == [] then s else IntendedStep(IntendedExec(s, es[..|es| - 1]), es[|es| - 1])
  }

  lemma IntendedStepArmed(s: State, e: Event)
    requires Inv(s) && (s.phase.Idle? ==> Armed(s, false))
    ensures IntendedStep(s, e).phase.Idle? ==> Armed(IntendedStep(s, e), false)
  {
    if s.phase.Idle? {
      match e
      case Add(a) => AddArmed(s, a, false);
      case Cancel(id) => CancelArmed(s, id);
      case _ =>
    }
  }

  /** With that re-arm, whenever timers remain outside handleRead the timerfd is armed in time, in every run. */
  lemma {:induction false} IntendedAlwaysArmed(es: seq<Event>)
    ensures var s := IntendedExec(Init, es); Inv(s) && (s.phase.Idle? ==> Armed(s, false))
  {
    if es != [] {
      var s := IntendedExec(Init, es[..|es| - 1]);
      IntendedAlwaysArmed(es[..|es| - 1]);
      StepInv(s, es[|es| - 1]);
      IntendedStepArmed(s, es[|es| - 1]);
    }
  }
}

/** The class TimerQueue; timer objects are values in a heap, and a pointer is an address. */
module TimerQueues {
  import opened Seqs
  import opened TimerProtocol

  /** What a callback may ask of its TimerQueue. */
  datatype Action = AddTimer(addr: Address, when: int, interval: real) | CancelTimer(id: TimerId)

  lemma ReachableInv(history: seq<Event>)
    ensures Inv(Exec(Init, history))
  {
    ExecInv(Init, history);
  }

  /** What a round of reset dereferences is alive. */
  lemma RoundAlive(history: seq<Event>)
    ensures var s := Exec(Init, history);
      s.phase.Resetting? && s.phase.left != [] ==>
        var a := s.phase.left[0].addr;
        && a in s.heap
        && var t := Settle(s, a, s.phase.now); t.timers != [] ==> t.timers[0].addr in t.heap
  {
    ReachableInv(history);
    var s := Exec(Init, history);
    if s.phase.Resetting? && s.phase.left != [] {
      SettleInv(s, s.phase.left, s.phase.now);
    }
  }

  lemma ResetOneIs(s: State)
    requires s.phase.Resetting? && s.phase.left != [] && s.phase.left[0].addr in s.heap
    requires var t := Settle(s, s.phase.left[0].addr, s.phase.now); t.timers != [] ==> t.timers[0].addr in t.heap
    ensures var t := Settle(s, s.phase.left[0].addr, s.phase.now);
      var next := if t.timers == [] then s.phase.nextExpire else t.heap[t.timers[0].addr].expiration;
      Step(s, Event.ResetOne) ==
      t.(phase := Resetting(s.phase.now, s.phase.left[1..], next), armed := if next > 0 then Some(next) else s.armed)
  {
  }

  lemma InsertMeans(timers: seq<Entry>, e: Entry)
    ensures forall x :: x in Inserted(timers, e) <==> x in timers || x == e
    ensures Sorted(timers) ==> Sorted(Inserted(timers, e))
    ensures Sorted(timers) ==> (EarliestChanges(timers, e.when) <==> forall x :: x in timers ==> e.when < x.when)
  {
    forall x ensures x in Inserted(timers, e) <==> x in timers || x == e {
      InsertedContents(timers, e, x);
    }
    if Sorted(timers) {
      InsertedSorted(timers, e);
      if timers != [] {
        assert timers[0] in timers;
        forall x | x in timers ensures timers[0].when <= x.when {
          if x in timers[1..] {
            FirstLess(timers, x);
          } else {
            assert timers == [timers[0]] + timers[1..];
          }
        }
      }
    }
  }

  class TimerQueue {
    var heap: Heap
    var numCreated: nat
    var timers: seq<Entry>
    var activeTimers: set<TimerId>
    var callingExpiredTimer: bool
    var cancelingTimers: set<TimerId>
    var timerfd: Option<int>
    // The steps so far and where they lead; the fields above are the concrete part of that state.
    ghost var history: seq<Event>
    ghost var model: State

    ghost predicate Mirrors()
      reads this
    {
      && heap == model.heap && numCreated == model.created
      && timers == model.timers && activeTimers == model.active
      && callingExpiredTimer == model.calling && cancelingTimers == model.canceling && timerfd == model.armed
    }

    ghost predicate Valid()
      reads this
    {
      Mirrors() && model == Exec(Init, history)
    }

    constructor ()
      ensures Valid() && model == Init && history == []
    {
      heap, numCreated, timers, activeTimers := map[], 0, [], {};
      callingExpiredTimer, cancelingTimers, timerfd := false, {}, None;
      history, model := [], Init;
    }

    /** Takes the protocol one step further; the fields are the caller's business. */
    ghost method Advance(e: Event)
      requires model == Exec(Init, history)
      modifies `history, `model
      ensures history == old(history) + [e] && model == Step(old(model), e) == Exec(Init, history)
    {
      ExecSnoc(Init, history, e);
      history, model := history + [e], Step(model, e);
    }

    /** The allocation in addTimer: the allocator returns any address that holds no timer. */
    method NewTimer(addr: Address, when: int, interval: real) returns (id: TimerId)
      requires Valid() && addr !in heap
      modifies `heap, `numCreated, `history, `model
      ensures Valid() && history == old(history) + [New(addr, when, interval)]
      ensures model == DoNew(old(model), addr, when, interval) && id == TimerId(addr, old(numCreated))
    {
      Advance(New(addr, when, interval));
      id := TimerId(addr, numCreated);
      heap := heap[addr := Timer(when, interval, numCreated)];
      numCreated := numCreated + 1;
    }

    /**
     * Both indexes gain exactly this timer, timers_ stays sorted, and the result
     * says whether it expires before every other one.
     */
    method Insert(addr: Address) returns (earliestChanged: bool)
      requires addr in heap
      modifies `timers, `activeTimers
      ensures timers == Inserted(old(timers), Entry(heap[addr].expiration, addr))
      ensures forall e :: e in timers <==> e in old(timers) || e == Entry(heap[addr].expiration, addr)
      ensures Sorted(old(timers)) ==>
        && Sorted(timers)
        && (earliestChanged <==> forall e :: e in old(timers) ==> heap[addr].expiration < e.when)
      ensures earliestChanged == EarliestChanges(old(timers), heap[addr].expiration)
      ensures forall id :: id in activeTimers <==> id in old(activeTimers) || id == IdAt(heap, addr)
    {
      earliestChanged := false;
      var when := heap[addr].expiration;
      if timers == [] || when < timers[0].when {
        earliestChanged := true;
      }
      InsertMeans(timers, Entry(when, addr));
      timers := Inserted(timers, Entry(when, addr));
      activeTimers := activeTimers + {TimerId(addr, heap[addr].sequence)};
    }

    method AddTimerInLoop(addr: Address)
      requires Valid() && addr in model.unadded && CanAct(model)
      modifies `timers, `activeTimers, `timerfd, `history, `model
      ensures Valid() && history == old(history) + [Add(addr)]
      ensures model == DoAdd(old(model), addr)
    {
      assert addr in heap by {
        ReachableInv(history);
      }
      Advance(Add(addr));
      var earliestChanged := Insert(addr);
      if earliestChanged {
        timerfd := Some(heap[addr].expiration);
      }
    }

    method CancelInLoop(id: TimerId)
      requires Valid() && CanAct(model)
      modifies `heap, `timers, `activeTimers, `cancelingTimers, `history, `model
      ensures Valid() && history == old(history) + [Cancel(id)]
      ensures model == DoCancel(old(model), id)
    {
      assert id in activeTimers ==> id.addr in heap by {
        ReachableInv(history);
      }
      Advance(Cancel(id));
      if id in activeTimers {
        timers := Erased(timers, Entry(heap[id.addr].expiration, id.addr));
        heap := heap - {id.addr};
        activeTimers := activeTimers - {id};
      } else if callingExpiredTimer {
        cancelingTimers := cancelingTimers + {id};
      }
    }

    /** timers_.lower_bound({now, UINTPTR_MAX}), by walking. */
    method LowerBound(now: int) returns (n: nat)
      ensures n == DueCount(timers, now)
    {
      n := 0;
      while n < |timers| && (timers[n].when < now || (timers[n].when == now && timers[n].addr < kUintptrMax))
        invariant n <= |timers| && DueCount(timers, now) == n + DueCount(timers[n..], now)
      {
        assert timers[n..][1..] == timers[n + 1..];
        n := n + 1;
      }
    }

    /** Takes the timers that are due out of both indexes. */
    method GetExpired(now: int) returns (expired: seq<Entry>)
      requires forall e :: e in timers ==> e.addr in heap
      modifies `timers, `activeTimers
      ensures expired == old(timers)[..DueCount(old(timers), now)] && timers == old(timers)[|expired|..]
      ensures activeTimers == old(activeTimers) - IdsOf(heap, expired)
    {
      var end := LowerBound(now);
      expired := timers[..end];
      timers := timers[end..];
      for i := 0 to |expired|
        invariant timers == old(timers)[end..] && activeTimers == old(activeTimers) - IdsOf(heap, expired[..i])
      {
        assert expired[i] in old(timers);
        assert expired[..i + 1] == expired[..i] + [expired[i]];
        activeTimers := activeTimers - {TimerId(expired[i].addr, heap[expired[i].addr].sequence)};
      }
      assert expired[..|expired|] == expired;
    }

    /** Everything of handleRead before the first callback. */
    method BeginPass(now: int) returns (expired: seq<Entry>)
      requires Valid() && model.phase.Idle?
      modifies this
      ensures Valid() && history == old(history) + [Begin(now)]
      ensures model == DoBegin(old(model), now) && expired == Due(old(model), now)
    {
      assert forall e :: e in timers ==> e.addr in heap by {
        ReachableInv(history);
      }
      ghost var m, due := model, Due(model, now);
      Advance(Begin(now));
      assert model.timers == m.timers[|due|..] && model.active == m.active - IdsOf(m.heap, due);
      if timerfd.Some? && timerfd.value <= now {
        timerfd := None;
      }
      expired := GetExpired(now);
      assert expired == due;
      callingExpiredTimer := true;
      cancelingTimers := {};
    }

    /** One action of a callback; addTimer and cancel run at once in the loop thread. */
    method Act(a: Action) returns (ghost trace: seq<Event>)
      requires Valid() && CanAct(model)
      modifies this
      ensures Valid() && model.phase == old(model).phase
      ensures NoBegin(trace) && history == old(history) + trace
    {
      trace := [];
      match a
      case AddTimer(addr, when, interval) =>
        if addr !in heap {
          var _ := NewTimer(addr, when, interval);
          AddTimerInLoop(addr);
          trace := [New(addr, when, interval), Add(addr)];
        }
      case CancelTimer(id) =>
        CancelInLoop(id);
        trace := [Cancel(id)];
    }

    /** A callback: any list of actions. */
    method RunCallback(script: seq<Action>) returns (ghost trace: seq<Event>)
      requires Valid() && CanAct(model)
      modifies this
      ensures Valid() && model.phase == old(model).phase
      ensures NoBegin(trace) && history == old(history) + trace
    {
      trace := [];
      for i := 0 to |script|
        invariant Valid() && CanAct(model) && model.phase == old(model).phase
        invariant NoBegin(trace) && history == old(history) + trace
      {
        ghost var more := Act(script[i]);
        trace := trace + more;
      }
    }

    /** The loop over expired in handleRead; the k-th callback does scripts[k], or nothing. */
    method RunExpired(expired: seq<Entry>, now: int, scripts: seq<seq<Action>>) returns (ghost trace: seq<Event>)
      requires Valid() && model.phase == Running(now, expired, 0)
      modifies this
      ensures Valid() && model.phase == Running(now, expired, |expired|)
      ensures NoBegin(trace) && history == old(history) + trace
    {
      trace := [];
      for k := 0 to |expired|
        invariant Valid() && model.phase == Running(now, expired, k)
        invariant NoBegin(trace) && history == old(history) + trace
      {
        assert expired[k].addr in heap by {
          ReachableInv(history);
          assert expired[k] in Batch(model);
        }
        Advance(Call);
        trace := trace + [Call];
        if k < |scripts| {
          ghost var more := RunCallback(scripts[k]);
          trace := trace + more;
        }
      }
    }

    /** One round of the loop in reset. */
    method ResetOne(it: Entry, now: int, nextExpire: int) returns (next: int)
      requires Valid() && model.phase.Resetting? && model.phase.left != [] && it == model.phase.left[0]
      requires now == model.phase.now && nextExpire == model.phase.nextExpire
      modifies `heap, `timers, `activeTimers, `timerfd, `history, `model
      ensures Valid() && history == old(history) + [Event.ResetOne]
      ensures model.phase == Resetting(now, old(model).phase.left[1..], next)
    {
      RoundAlive(history);
      ghost var settled := Settle(model, it.addr, now);
      ResetOneIs(model);
      Advance(Event.ResetOne);
      SettleTimer(it.addr, now, old(model));
      next := nextExpire;
      if timers != [] {
        next := heap[timers[0].addr].expiration;
      }
      if next > 0 {
        timerfd := Some(next);
      }
      assert model == settled.(phase := Resetting(now, old(model).phase.left[1..], next), armed := timerfd);
    }

    /** The first half of the round: back into the queue, or deleted. */
    method SettleTimer(addr: Address, now: int, ghost s: State)
      requires addr in heap
      requires s.heap == heap && s.timers == timers && s.active == activeTimers && s.canceling == cancelingTimers
      modifies `heap, `timers, `activeTimers
      ensures heap == Settle(s, addr, now).heap && timers == Settle(s, addr, now).timers
      ensures activeTimers == Settle(s, addr, now).active
    {
      if heap[addr].Repeat() && TimerId(addr, heap[addr].sequence) !in cancelingTimers {
        heap := heap[addr := Restart(heap[addr], now)];
        var _ := Insert(addr);
      } else {
        heap := heap - {addr};
      }
    }

    method Reset(expired: seq<Entry>, now: int) returns (ghost trace: seq<Event>)
      requires Valid() && model.phase == Resetting(now, expired, 0)
      modifies `heap, `timers, `activeTimers, `timerfd, `history, `model
      ensures Valid() && model.phase.Resetting? && model.phase.left == []
      ensures NoBegin(trace) && history == old(history) + trace
    {
      var nextExpire := 0;
      trace := [];
      for i := 0 to |expired|
        invariant Valid() && model.phase == Resetting(now, expired[i..], nextExpire)
        invariant NoBegin(trace) && history == old(history) + trace
      {
        nextExpire := ResetOne(expired[i], now, nextExpire);
        trace := trace + [Event.ResetOne];
      }
    }

    /** handleRead after the batch was taken: the calls, and reset. */
    method FinishPass(expired: seq<Entry>, now: int, scripts: seq<seq<Action>>) returns (ghost trace: seq<Event>)
      requires Valid() && model.phase == Running(now, expired, 0)
      modifies this
      ensures Valid() && model.phase.Resetting? && model.phase.left == []
      ensures NoBegin(trace) && history == old(history) + trace
    {
      trace := RunExpired(expired, now, scripts);
      callingExpiredTimer := false;
      Advance(EndCalls);
      ghost var more := Reset(expired, now);
      trace := trace + [EndCalls] + more;
    }

    /**
     * handleRead, whatever its callbacks do: exactly the timers due at now run,
     * once each and in order, and each of them ends up queued again or deleted.
     */
    method HandleRead(now: int, scripts: seq<seq<Action>>) returns (ghost trace: seq<Event>)
      requires Valid() && model.phase.Idle?
      modifies this
      ensures Valid() && model.phase.Idle?
      ensures NoBegin(trace) && history == old(history) + [Begin(now)] + trace + [EndReset]
      ensures RanPrefix(PassAt(old(model), now), |Due(old(model), now)|, model.ran)
      ensures forall e :: e in Due(old(model), now) ==> AfterPass(old(model), now, trace, e, model)
    {
      ghost var before, model0 := history, model;
      var expired := BeginPass(now);
      trace := FinishPass(expired, now, scripts);
      ghost var done := model;
      Advance(EndReset);
      PassOutcome(before, now, trace);
    }
  }

  /** A due timer that repeats and was not cancelled in the pass is queued at now plus its interval; any other is deleted. */
  ghost predicate AfterPass(s: State, now: int, trace: seq<Event>, e: Entry, t: State)
  {
    e.addr in s.heap &&
    if s.heap[e.addr].interval > 0.0 && !CancelledIn(DoBegin(s, now), trace, IdAt(s.heap, e.addr)) then
      Requeued(s.heap[e.addr], e.addr, now, t)
    else s.heap[e.addr].sequence in t.deleted
  }

  lemma PassOutcome(before: seq<Event>, now: int, trace: seq<Event>)
    requires Exec(Init, before).phase.Idle? && NoBegin(trace)
    requires Exec(Init, before + [Begin(now)] + trace).phase.Resetting?
    requires Exec(Init, before + [Begin(now)] + trace).phase.left == []
    ensures var (s, t) := (Exec(Init, before), DoEndReset(Exec(Init, before + [Begin(now)] + trace)));
      && RanPrefix(PassAt(s, now), |Due(s, now)|, t.ran)
      && forall e :: e in Due(s, now) ==> AfterPass(s, now, trace, e, t)
  {
    var s := Exec(Init, before);
    var t := Exec(DoBegin(s, now), trace);
    ReachableInv(before);
    ExecSnoc(Init, before, Begin(now));
    ExecConcat(Init, before + [Begin(now)], trace);
    HandleReadRunsExactlyTheDue(s, now, trace);
    forall e | e in Due(s, now) ensures AfterPass(s, now, trace, e, DoEndReset(t)) {
      HandleReadRequeuesSurvivors(s, now, trace, e);
    }
  }
}
