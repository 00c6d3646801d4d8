/** Names of connections: src/TcpServer.cc, newConnection. */
module ConnNames {
  import opened Decimals

  const kNameBuffer: nat := 64  // char buf[64], of which snprintf keeps 63 characters

  function Truncated(s: string): string
  {
    if |s| >= kNameBuffer then s[..kNameBuffer - 1] else s
  }

  function ConnName(server: string, ipPort: string, id: nat): string
  {
    server + Truncated("-" + ipPort + "#" + Decimal(id))
  }

  type Octet = n: nat | n < 256
  type Port = n: nat | n < 0x1_0000

  /** The address a server listens on. */
  datatype Endpoint = V4(a: Octet, b: Octet, c: Octet, d: Octet, port: Port) | V6(port: Port)

  /** InetAddress::toIpPort: dotted decimal and port; the host of an address that is not IPv4 is left out. */
  function ToIpPort(e: Endpoint): string
  {
    match e
    case V4(a, b, c, d, port) =>
      Decimal(a) + "." + Decimal(b) + "." + Decimal(c) + "." + Decimal(d) + ":" + Decimal(port)
    case V6(port) => ":" + Decimal(port)
  }

  const kMaxConnId: nat := 0x7FFF_FFFF  // nextConnId_ is an int

  /** The ids 1 to n all print in full. */
  predicate NamesFit(ipPort: string, n: nat)
  {
    n <= 1 || |"-" + ipPort + "#" + Decimal(n)| <= 63
  }

  lemma DecimalLengthMonotone(i: nat, j: nat)
    requires i <= j
    ensures 1 <= |Decimal(i)| <= |Decimal(j)|
  {
    MagnitudeLength(j, |Magnitude(j)|);
    MagnitudeLength(i, |Magnitude(j)|);
  }

  lemma FittingNamesDiffer(server: string, ipPort: string, n: nat, i: nat, j: nat)
    requires NamesFit(ipPort, n) && 1 <= i < j <= n
    ensures ConnName(server, ipPort, i) != ConnName(server, ipPort, j)
  {
    DecimalLengthMonotone(i, n);
    DecimalLengthMonotone(j, n);
    var prefix := "-" + ipPort + "#";
    var a, b := prefix + Decimal(i), prefix + Decimal(j);
    if server + a == server + b {
      assert (server + a)[|server|..] == a && (server + b)[|server|..] == b;
      assert a[|prefix|..] == Decimal(i) && b[|prefix|..] == Decimal(j);
      DecimalInjective(i, j);
    }
  }

  /** Every nonempty prefix of a decimal number is the decimal form of a number that is not greater. */
  lemma {:induction false} PrefixNumber(n: nat, k: nat) returns (m: nat)
    requires n > 0 && 1 <= k <= |Magnitude(n)|
    ensures 1 <= m <= n && Magnitude(m) == Magnitude(n)[..k]
    ensures k < |Magnitude(n)| ==> m < n
  {
    if k == |Magnitude(n)| {
      m := n;
    } else {
      assert n >= 10;
      m := PrefixNumber(n / 10, k);
      assert Magnitude(n)[..k] == Magnitude(n / 10)[..k];
    }
  }

  lemma CollidingNames(server: string, ipPort: string, n: nat) returns (i: nat, j: nat)
    requires !NamesFit(ipPort, n)
    ensures 1 <= i < j <= n && ConnName(server, ipPort, i) == ConnName(server, ipPort, j)
  {
    var prefix := "-" + ipPort + "#";
    if |prefix| >= kNameBuffer - 1 {
      i, j := 1, 2;
      assert Truncated(prefix + Decimal(1)) == prefix[..kNameBuffer - 1] == Truncated(prefix + Decimal(2));
    } else {
      var k := kNameBuffer - 1 - |prefix|;
      i := PrefixNumber(n, k);
      j := n;
      assert Truncated(prefix + Decimal(i)) == prefix + Decimal(i);
      assert Truncated(prefix + Decimal(n)) == prefix + Decimal(n)[..k];
    }
  }

  /**
   * The names of n connections are distinct exactly when the last of them was
   * not cut short by the buffer.
   */
  lemma NamesUniqueIff(server: string, ipPort: string, n: nat)
    ensures NamesFit(ipPort, n) <==>
      forall i: nat, j: nat :: 1 <= i < j <= n ==> ConnName(server, ipPort, i) != ConnName(server, ipPort, j)
  {
    if NamesFit(ipPort, n) {
      forall i: nat, j: nat | 1 <= i < j <= n ensures ConnName(server, ipPort, i) != ConnName(server, ipPort, j) {
        FittingNamesDiffer(server, ipPort, n, i, j);
      }
    } else {
      var i, j := CollidingNames(server, ipPort, n);
    }
  }

  lemma IpPortLength(e: Endpoint)
    ensures |ToIpPort(e)| <= 21
  {
    if e.V4? {
      MagnitudeLength(e.a, 3);
      MagnitudeLength(e.b, 3);
      MagnitudeLength(e.c, 3);
      MagnitudeLength(e.d, 3);
    }
    MagnitudeLength(e.port, 5);
    assert Pow10(3) == 1000 && Pow10(5) == 100 * Pow10(3);
  }

  /** Every name that a server can print fits the buffer. */
  lemma NamesAlwaysFit(e: Endpoint, n: nat)
    requires n <= kMaxConnId
    ensures NamesFit(ToIpPort(e), n)
  {
    IpPortLength(e);
    MagnitudeLength(n, 10);
    assert Pow10(5) == 100_000 && Pow10(10) == 100_000 * Pow10(5);
  }

  /** So no two connections of a server ever share a name. */
  lemma NamesAlwaysDiffer(server: string, e: Endpoint, i: nat, j: nat)
    requires 1 <= i < j <= kMaxConnId
    ensures ConnName(server, ToIpPort(e), i) != ConnName(server, ToIpPort(e), j)
  {
    NamesAlwaysFit(e, j);
    FittingNamesDiffer(server, ToIpPort(e), j, i, j);
  }
}

/**
 * One io loop with its connections and the server that accepts and removes
 * them: src/TcpServer.cc, the loop of src/EventLoop.cc, and the members of
 * src/TcpConnection.cc that the loop runs. A run is any list of events; the
 * kernel, the peers, the users and the server's own loop choose them.
 */
module Reactor {
  import opened Seqs
  import opened Pollers
  import opened Buffers
  import opened Connections
  import opened ConnNames

  /** Where a connection stands between server and loop. */
  datatype Stage =
    | Accepted  // connectEstablished is queued
    | Open
    | Closing   // the close callback ran; removeConnectionInLoop is queued in the server's loop
    | Erased    // no longer in connections_; connectDestroyed is queued
    | Gone      // connectDestroyed ran
    | Astray    // reading was started after the close

  datatype Task = Task(id: nat, f: Functor)
  datatype Ready = Ready(id: nat, readable: bool, writable: bool)
  datatype Phase = Polling | Walking(active: seq<Ready>) | Draining(batch: seq<Task>)

  /** sameLoop: the io loop is the server's own loop, so runInLoop from one to the other is immediate. */
  datatype Server = Server(name: string, listen: Endpoint, sameLoop: bool)

  datatype State = State(
    conns: seq<Conn>,           // by number of acceptance
    names: seq<string>,         // name() of each
    stage: seq<Stage>,          // history
    registry: map<string, nat>, // connections_
    removals: seq<nat>,         // removeConnectionInLoop functors of the server's loop
    queue: seq<Task>,           // pendingFunctors_ of the io loop
    phase: Phase)

  datatype Event =
    | Accept(notify: bool)
    | Call(id: nat, call: UserCall, inLoop: bool, w: WriteResult)
    | Remove
    | Poll(ready: seq<Ready>)
    | Handle(r: ReadResult, w: WriteResult)
    | EndWalk
    | RunTask(w: WriteResult)
    | EndDrain

  const Init := State([], [], [], map[], [], [], Polling)

  function Tasks(id: nat, fs: seq<Functor>): seq<Task>
  {
    seq(|fs|, i requires 0 <= i < |fs| => Task(id, fs[i]))
  }

  function NameOf(v: Server, id: nat): string
  {
    ConnName(v.name, ToIpPort(v.listen), id + 1)
  }

  /** newConnection */
  function DoAccept(v: Server, s: State, notify: bool): State
  {
    var id, c, name := |s.conns|, NewConn(notify), NameOf(v, |s.conns|);
    var t := s.(registry := s.registry[name := id], names := s.names + [name]);
    if v.sameLoop then
      t.(conns := s.conns + [DoConnectEstablished(c)], stage := s.stage + [Open])
    else
      t.(conns := s.conns + [c], stage := s.stage + [Accepted], queue := s.queue + [Task(id, ConnectEstablished)])
  }

  /** A connection that has gone astray stays so. */
  function Moved(stage: seq<Stage>, id: nat, st: Stage): seq<Stage>
    requires id < |stage|
  {
    if stage[id] == Astray then stage else stage[id := st]
  }

  /** removeConnectionInLoop */
  function DoRemove(s: State, id: nat): State
    requires id < |s.stage| == |s.names|
  {
    s.(registry := s.registry - {s.names[id]},
       stage := Moved(s.stage, id, Erased),
       queue := s.queue + [Task(id, ConnectDestroyed)])
  }

  /** removeConnection, the close callback of every connection */
  function CloseCallback(v: Server, s: State, id: nat): State
    requires id < |s.stage| == |s.names|
  {
    if v.sameLoop then DoRemove(s, id)
    else s.(stage := Moved(s.stage, id, Closing), removals := s.removals + [id])
  }

  /** A member function of connection id has run with outcome o. */
  function Absorb(v: Server, s: State, id: nat, o: Outcome): State
    requires id < |s.conns| == |s.stage| == |s.names|
  {
    var t := s.(conns := s.conns[id := o.conn], queue := s.queue + Tasks(id, o.queued));
    var u := if o.conn.log.closes > s.conns[id].log.closes then CloseCallback(v, t, id) else t;
    if o.conn.log.restarted then u.(stage := u.stage[id := Astray]) else u
  }

  function After(f: Functor, stage: Stage): Stage
  {
    match f case ConnectEstablished => Open case ConnectDestroyed => Gone case _ => stage
  }

  /** What epoll_wait may report: distinct registered channels, ready only for what they wait for. */
  predicate Deliverable(s: State, ready: seq<Ready>)
  {
    && (forall i :: 0 <= i < |ready| ==>
          && ready[i].id < |s.conns|
          && s.conns[ready[i].id].channel.index == Added
          && (ready[i].readable ==> s.conns[ready[i].id].channel.reading)
          && (ready[i].writable ==> s.conns[ready[i].id].channel.writing))
    && (forall i, j :: 0 <= i < j < |ready| ==> ready[i].id != ready[j].id)
  }

  /** Channel::handleEvent of the first channel of the active list: read before write, then the next channel. */
  function DoHandle(v: Server, s: State, r: ReadResult, w: WriteResult): State
    requires |s.conns| == |s.stage| == |s.names| && s.phase.Walking? && s.phase.active != [] && s.phase.active[0].id < |s.conns|
  {
    var h, rest := s.phase.active[0], s.phase.active[1..];
    var c := s.conns[h.id];
    if h.readable then
      Absorb(v, s.(phase := Walking([h.(readable := false)] + rest)), h.id, Outcome(DoHandleRead(c, r), []))
    else if h.writable then
      Absorb(v, s.(phase := Walking([h.(writable := false)] + rest)), h.id, DoHandleWrite(c, w))
    else
      s.(phase := Walking(rest))
  }

  function DoRunTask(v: Server, s: State, w: WriteResult): State
    requires |s.conns| == |s.stage| == |s.names| && s.phase.Draining? && s.phase.batch != [] && s.phase.batch[0].id < |s.conns|
  {
    var t, rest := s.phase.batch[0], s.phase.batch[1..];
    Absorb(v, s.(phase := Draining(rest), stage := Moved(s.stage, t.id, After(t.f, s.stage[t.id]))),
           t.id, RunFunctor(s.conns[t.id], t.f, w))
  }

  /** Events that cannot happen in a state leave it alone. */
  function Step(v: Server, s: State, e: Event): State
  {
    if !(|s.conns| == |s.stage| == |s.names|) then s else
    match e
    case Accept(notify) =>
      // nextConnId_ would overflow.
      if |s.conns| + 1 < kMaxConnId then DoAccept(v, s, notify) else s
    case Call(id, call, inLoop, w) =>
      // Users know a connection from its first callback on. With inLoop, the caller is a callback, or
      // a functor or a timer of the user that the loop runs; these have no events of their own here,
      // so such a call can come in any phase.
      if id < |s.conns| && s.conns[id].state != Connecting then
        Absorb(v, s, id, DoUserCall(s.conns[id], call, inLoop, w))
      else s
    case Remove =>
      if s.removals != [] && s.removals[0] < |s.conns| then
        DoRemove(s.(removals := s.removals[1..]), s.removals[0])
      else s
    case Poll(ready) =>
      if s.phase.Polling? && Deliverable(s, ready) then s.(phase := Walking(ready)) else s
    case Handle(r, w) =>
      if s.phase.Walking? && s.phase.active != [] && s.phase.active[0].id < |s.conns| then DoHandle(v, s, r, w) else s
    case EndWalk =>
      if s.phase == Walking([]) then s.(phase := Draining(s.queue), queue := []) else s
    case RunTask(w) =>
      if s.phase.Draining? && s.phase.batch != [] && s.phase.batch[0].id < |s.conns| then DoRunTask(v, s, w) else s
    case EndDrain =>
      if s.phase == Draining([]) then s.(phase := Polling) else s
  }

  function Exec(v: Server, s: State, es: seq<Event>): State
  {
    if es == [] then s else Step(v, Exec(v, s, es[..|es| - 1]), es[|es| - 1])
  }

  // ---------------------------------------------------------------------------
  // The invariant

  function Batch(s: State): seq<Task>
  {
    if s.phase.Draining? then s.phase.batch else []
  }

  function StageAt(stage: seq<Stage>, id: nat): Stage
  {
    if id < |stage| then stage[id] else Gone
  }

  predicate StageOk(c: Conn, st: Stage)
  {
    match st
    case Accepted => c.state == Connecting && !c.log.removed
    case Open => c.state in {Connected, Disconnecting} && !c.log.removed
    case Closing => c.state == Disconnected && !c.log.removed && c.log.closes > 0 && !c.log.restarted
    case Erased => c.state == Disconnected && !c.log.removed && c.log.closes > 0 && !c.log.restarted
    case Gone => c.state == Disconnected && c.log.removed && c.log.closes > 0 && !c.log.restarted
    case Astray => c.state == Disconnected && c.log.restarted
  }

  predicate ConnsOk(conns: seq<Conn>, stage: seq<Stage>)
  {
    && |conns| == |stage|
    && forall id :: 0 <= id < |conns| ==> ConnInv(conns[id]) && StageOk(conns[id], stage[id])
  }

  function One(b: bool): nat { if b then 1 else 0 }

  /** How often a task is still to be run. */
  function Pending(batch: seq<Task>, queue: seq<Task>, t: Task): nat
  {
    multiset(batch)[t] + multiset(queue)[t]
  }

  /** Establishing and destroying are each queued once, at the right stage. */
  ghost predicate TasksOk(stage: seq<Stage>, batch: seq<Task>, queue: seq<Task>)
  {
    && (forall t :: Pending(batch, queue, t) > 0 ==>
          t.id < |stage| && (stage[t.id] == Accepted ==> t.f == ConnectEstablished))
    && (forall id :: Pending(batch, queue, Task(id, ConnectEstablished)) == One(StageAt(stage, id) == Accepted))
    && (forall id :: StageAt(stage, id) != Astray ==>
          Pending(batch, queue, Task(id, ConnectDestroyed)) == One(StageAt(stage, id) == Erased))
  }

  ghost predicate RemovalsOk(stage: seq<Stage>, removals: seq<nat>)
  {
    forall id: nat :: StageAt(stage, id) != Astray ==> multiset(removals)[id] == One(StageAt(stage, id) == Closing)
  }

  /** The stages at which connections_ holds a connection. */
  predicate Listed(st: Stage)
  {
    st.Accepted? || st.Open? || st.Closing?
  }

  /** connections_ holds exactly the connections accepted and not yet erased, each under its name. */
  ghost predicate RegistryOk(stage: seq<Stage>, names: seq<string>, registry: map<string, nat>)
  {
    && |names| == |stage|
    && (forall n :: n in registry ==>
          && registry[n] < |stage| && n == names[registry[n]]
          && (Listed(stage[registry[n]]) || stage[registry[n]] == Astray))
    && (forall id :: 0 <= id < |stage| && Listed(stage[id]) ==> names[id] in registry && registry[names[id]] == id)
  }

  /** What a channel of the active list is like while the list is walked. */
  predicate Reported(c: Conn, st: Stage, readable: bool)
  {
    && st != Accepted && (readable ==> st in {Open, Astray})
    && c.channel.index != New && (c.log.removed ==> c.log.revived)
  }

  predicate WalkOk(conns: seq<Conn>, stage: seq<Stage>, phase: Phase)
  {
    phase.Walking? ==>
      && (forall i :: 0 <= i < |phase.active| ==>
            && phase.active[i].id < |conns| == |stage|
            && Reported(conns[phase.active[i].id], stage[phase.active[i].id], phase.active[i].readable))
      && (forall i, j :: 0 <= i < j < |phase.active| ==> phase.active[i].id != phase.active[j].id)
  }

  /** The text that queued functors will hand to sendInLoop of connection id. */
  function QueuedText(ts: seq<Task>, id: nat): string
  {
    if ts == [] then [] else (if ts[0].id == id then PayloadOf(ts[0].f) else []) + QueuedText(ts[1..], id)
  }

  function Waiting(batch: seq<Task>, queue: seq<Task>, id: nat): string
  {
    QueuedText(batch, id) + QueuedText(queue, id)
  }

  /** Every text that send() accepted was handed over, given up, or is in a queued functor, in order. */
  predicate TextsOk(conns: seq<Conn>, batch: seq<Task>, queue: seq<Task>)
  {
    forall id :: 0 <= id < |conns| ==> Balanced(conns[id], Waiting(batch, queue, id))
  }

  ghost predicate Inv(s: State)
  {
    && ConnsOk(s.conns, s.stage)
    && TasksOk(s.stage, Batch(s), s.queue)
    && RemovalsOk(s.stage, s.removals)
    && RegistryOk(s.stage, s.names, s.registry)
    && WalkOk(s.conns, s.stage, s.phase)
    && TextsOk(s.conns, Batch(s), s.queue)
  }

  // ---------------------------------------------------------------------------
  // Queue arithmetic

  lemma {:induction false} QueuedTextConcat(a: seq<Task>, b: seq<Task>, id: nat)
    ensures QueuedText(a + b, id) == QueuedText(a, id) + QueuedText(b, id)
  {
    if a == [] {
      assert a + b == b;
    } else {
      assert (a + b)[1..] == a[1..] + b;
      QueuedTextConcat(a[1..], b, id);
      Assoc(if a[0].id == id then PayloadOf(a[0].f) else [], QueuedText(a[1..], id), QueuedText(b, id));
    }
  }

  lemma {:induction false} QueuedTextTasks(id: nat, fs: seq<Functor>, j: nat)
    ensures QueuedText(Tasks(id, fs), j) == if j == id then Payload(fs) else []
  {
    if fs != [] {
      assert Tasks(id, fs)[1..] == Tasks(id, fs[1..]);
      QueuedTextTasks(id, fs[1..], j);
    }
  }

  lemma WaitingAppend(batch: seq<Task>, queue: seq<Task>, id: nat, fs: seq<Functor>, j: nat)
    ensures Waiting(batch, queue + Tasks(id, fs), j) == Waiting(batch, queue, j) + if j == id then Payload(fs) else []
  {
    QueuedTextConcat(queue, Tasks(id, fs), j);
    QueuedTextTasks(id, fs, j);
    Assoc(QueuedText(batch, j), QueuedText(queue, j), if j == id then Payload(fs) else []);
  }

  lemma PendingAppend(batch: seq<Task>, queue: seq<Task>, more: seq<Task>, t: Task)
    ensures Pending(batch, queue + more, t) == Pending(batch, queue, t) + multiset(more)[t]
  {
    assert multiset(queue + more) == multiset(queue) + multiset(more);
  }

  lemma PendingPop(batch: seq<Task>, queue: seq<Task>, t: Task)
    requires batch != []
    ensures Pending(batch, queue, t) == Pending(batch[1..], queue, t) + One(t == batch[0])
  {
    assert batch == [batch[0]] + batch[1..];
    assert multiset(batch) == multiset{batch[0]} + multiset(batch[1..]);
  }

  lemma TasksMembers(id: nat, fs: seq<Functor>, t: Task)
    ensures multiset(Tasks(id, fs))[t] > 0 <==> t.id == id && t.f in fs
  {
    if t.id == id && t.f in fs {
      var i :| 0 <= i < |fs| && fs[i] == t.f;
      assert Tasks(id, fs)[i] == t;
    }
    assert t in multiset(Tasks(id, fs)) <==> t in Tasks(id, fs);
  }

  /** Queueing functors other than the server's own. */
  lemma TasksAppendOk(stage: seq<Stage>, batch: seq<Task>, queue: seq<Task>, id: nat, fs: seq<Functor>)
    requires TasksOk(stage, batch, queue) && id < |stage| && (fs != [] ==> stage[id] != Accepted)
    requires ConnectEstablished !in fs && ConnectDestroyed !in fs
    ensures TasksOk(stage, batch, queue + Tasks(id, fs))
  {
    forall t
      ensures Pending(batch, queue + Tasks(id, fs), t) ==
        Pending(batch, queue, t) + multiset(Tasks(id, fs))[t]
      ensures multiset(Tasks(id, fs))[t] > 0 <==> t.id == id && t.f in fs
    {
      PendingAppend(batch, queue, Tasks(id, fs), t);
      TasksMembers(id, fs, t);
    }
  }

  lemma TextsAppendOk(conns: seq<Conn>, batch: seq<Task>, queue: seq<Task>, id: nat, c: Conn, fs: seq<Functor>)
    requires id < |conns|
    requires forall j :: 0 <= j < |conns| && j != id ==> Balanced(conns[j], Waiting(batch, queue, j))
    requires Balanced(c, Waiting(batch, queue, id) + Payload(fs))
    ensures TextsOk(conns[id := c], batch, queue + Tasks(id, fs))
  {
    forall j | 0 <= j < |conns| ensures Balanced(conns[id := c][j], Waiting(batch, queue + Tasks(id, fs), j)) {
      WaitingAppend(batch, queue, id, fs, j);
      assert Waiting(batch, queue, j) + [] == Waiting(batch, queue, j);
    }
  }

  // ---------------------------------------------------------------------------
  // One connection acts

  /** The invariant, except for the record of connection id, which is about to be replaced. */
  ghost predicate InvExcept(s: State, id: nat)
  {
    && id < |s.conns| == |s.stage| == |s.names|
    && (forall j :: 0 <= j < |s.conns| && j != id ==> ConnInv(s.conns[j]) && StageOk(s.conns[j], s.stage[j]))
    && (forall j :: 0 <= j < |s.conns| && j != id ==> Balanced(s.conns[j], Waiting(Batch(s), s.queue, j)))
    && TasksOk(s.stage, Batch(s), s.queue)
    && RemovalsOk(s.stage, s.removals)
    && RegistryOk(s.stage, s.names, s.registry)
    && WalkOk(s.conns, s.stage, s.phase)
  }

  /** What a member function of connection id may do to the queue and to the accounts. */
  predicate OutcomeOk(s: State, id: nat, o: Outcome)
    requires id < |s.conns|
  {
    && ConnInv(o.conn)
    && ConnectEstablished !in o.queued && ConnectDestroyed !in o.queued
    && Balanced(o.conn, Waiting(Batch(s), s.queue, id) + Payload(o.queued))
    && (s.phase.Walking? ==> Listens(s.conns[id], o.conn))
  }

  lemma ReplaceWalk(conns: seq<Conn>, stage: seq<Stage>, phase: Phase, id: nat, c: Conn)
    requires WalkOk(conns, stage, phase) && id < |conns| && (phase.Walking? ==> Listens(conns[id], c))
    ensures WalkOk(conns[id := c], stage, phase)
  {
    if phase.Walking? {
      forall i | 0 <= i < |phase.active|
        ensures Reported(conns[id := c][phase.active[i].id], stage[phase.active[i].id], phase.active[i].readable)
      {
        assert Reported(conns[phase.active[i].id], stage[phase.active[i].id], phase.active[i].readable);
      }
    }
  }

  /** It acts and stays at its stage. */
  lemma AbsorbQuiet(v: Server, s: State, id: nat, o: Outcome)
    requires InvExcept(s, id) && OutcomeOk(s, id, o)
    requires o.conn.log.closes <= s.conns[id].log.closes && StageOk(o.conn, s.stage[id])
    requires o.queued != [] ==> s.stage[id] != Accepted
    ensures Inv(Absorb(v, s, id, o))
  {
    TasksAppendOk(s.stage, Batch(s), s.queue, id, o.queued);
    TextsAppendOk(s.conns, Batch(s), s.queue, id, o.conn, o.queued);
    ReplaceWalk(s.conns, s.stage, s.phase, id, o.conn);
    var t := Absorb(v, s, id, o);
    assert t == s.(conns := s.conns[id := o.conn], queue := s.queue + Tasks(id, o.queued)) by {
      assert o.conn.log.restarted ==> s.stage[id] == Astray && s.stage[id := Astray] == s.stage;
    }
  }

  lemma AstrayOk(stage: seq<Stage>, names: seq<string>, registry: map<string, nat>, removals: seq<nat>,
                 batch: seq<Task>, queue: seq<Task>, id: nat)
    requires id < |stage| && stage[id] != Accepted
    requires TasksOk(stage, batch, queue) && RemovalsOk(stage, removals) && RegistryOk(stage, names, registry)
    ensures TasksOk(stage[id := Astray], batch, queue) && RemovalsOk(stage[id := Astray], removals)
    ensures RegistryOk(stage[id := Astray], names, registry)
  {
  }

  lemma AstrayWalk(conns: seq<Conn>, stage: seq<Stage>, phase: Phase, id: nat)
    requires WalkOk(conns, stage, phase) && id < |stage|
    ensures WalkOk(conns, stage[id := Astray], phase)
  {
  }

  /** It starts reading after its close. */
  lemma AbsorbAstray(v: Server, s: State, id: nat, o: Outcome)
    requires InvExcept(s, id) && OutcomeOk(s, id, o)
    requires o.conn.log.closes <= s.conns[id].log.closes && s.stage[id] != Accepted
    requires o.conn.log.restarted && o.conn.state == Disconnected
    ensures Inv(Absorb(v, s, id, o))
  {
    var m := s.(stage := s.stage[id := Astray]);
    AstrayOk(s.stage, s.names, s.registry, s.removals, Batch(s), s.queue, id);
    AstrayWalk(s.conns, s.stage, s.phase, id);
    assert Batch(m) == Batch(s);
    AbsorbQuiet(v, m, id, o);
    AstrayShape(v, s, id, o);
  }

  lemma AstrayShape(v: Server, s: State, id: nat, o: Outcome)
    requires id < |s.conns| == |s.stage| == |s.names|
    requires o.conn.log.closes <= s.conns[id].log.closes && o.conn.log.restarted
    ensures Absorb(v, s.(stage := s.stage[id := Astray]), id, o) == Absorb(v, s, id, o)
  {
  }

  predicate Unique(names: seq<string>)
  {
    forall i, j :: 0 <= i < j < |names| ==> names[i] != names[j]
  }

  lemma TasksErase(stage: seq<Stage>, batch: seq<Task>, queue: seq<Task>, id: nat)
    requires TasksOk(stage, batch, queue) && id < |stage| && stage[id] in {Open, Closing, Astray}
    ensures TasksOk(Moved(stage, id, Erased), batch, queue + [Task(id, ConnectDestroyed)])
  {
    forall t ensures Pending(batch, queue + [Task(id, ConnectDestroyed)], t) ==
                     Pending(batch, queue, t) + One(t == Task(id, ConnectDestroyed)) {
      PendingAppend(batch, queue, [Task(id, ConnectDestroyed)], t);
    }
  }

  lemma RegistryErase(stage: seq<Stage>, names: seq<string>, registry: map<string, nat>, id: nat)
    requires RegistryOk(stage, names, registry) && id < |stage| && Unique(names)
    ensures RegistryOk(Moved(stage, id, Erased), names, registry - {names[id]})
  {
  }

  /** removeConnectionInLoop on a connection that is closed, and whose close is the latest thing it did. */
  lemma RemoveOk(s: State, id: nat)
    requires id < |s.conns| == |s.stage| == |s.names| && s.stage[id] in {Open, Closing, Astray}
    requires TasksOk(s.stage, Batch(s), s.queue) && RegistryOk(s.stage, s.names, s.registry)
    requires RemovalsOk(Moved(s.stage, id, Erased), s.removals) && Unique(s.names)
    requires WalkOk(s.conns, Moved(s.stage, id, Erased), s.phase) && ConnsOk(s.conns, Moved(s.stage, id, Erased))
    requires TextsOk(s.conns, Batch(s), s.queue)
    ensures Inv(DoRemove(s, id))
  {
    var t := DoRemove(s, id);
    TasksErase(s.stage, Batch(s), s.queue, id);
    RegistryErase(s.stage, s.names, s.registry, id);
    RemoveTexts(s.conns, Batch(s), s.queue, id);
    assert Batch(t) == Batch(s);
  }

  lemma RemoveTexts(conns: seq<Conn>, batch: seq<Task>, queue: seq<Task>, id: nat)
    requires TextsOk(conns, batch, queue)
    ensures TextsOk(conns, batch, queue + [Task(id, ConnectDestroyed)])
  {
    assert Tasks(id, [ConnectDestroyed]) == [Task(id, ConnectDestroyed)];
    SinglePayload(ConnectDestroyed);
    forall j | 0 <= j < |conns| ensures Waiting(batch, queue + [Task(id, ConnectDestroyed)], j) == Waiting(batch, queue, j) {
      WaitingAppend(batch, queue, id, [ConnectDestroyed], j);
      assert Waiting(batch, queue, j) + [] == Waiting(batch, queue, j);
    }
  }

  /** No event for reading connection id is left in the active list. */
  predicate NotReadable(phase: Phase, id: nat)
  {
    phase.Walking? ==> forall i :: 0 <= i < |phase.active| && phase.active[i].id == id ==> !phase.active[i].readable
  }

  lemma CloseWalk(conns: seq<Conn>, stage: seq<Stage>, phase: Phase, id: nat, st: Stage)
    requires WalkOk(conns, stage, phase) && id < |stage| && st in {Closing, Erased} && NotReadable(phase, id)
    ensures WalkOk(conns, Moved(stage, id, st), phase)
  {
  }

  lemma CloseTasks(stage: seq<Stage>, batch: seq<Task>, queue: seq<Task>, id: nat)
    requires TasksOk(stage, batch, queue) && id < |stage| && stage[id] in {Open, Astray}
    ensures TasksOk(Moved(stage, id, Closing), batch, queue)
  {
  }

  lemma CloseRemovals(stage: seq<Stage>, removals: seq<nat>, id: nat)
    requires RemovalsOk(stage, removals) && id < |stage| && stage[id] in {Open, Astray}
    ensures RemovalsOk(Moved(stage, id, Closing), removals + [id])
    ensures RemovalsOk(Moved(stage, id, Erased), removals)
  {
    assert multiset(removals + [id]) == multiset(removals) + multiset{id};
  }

  lemma CloseRegistry(stage: seq<Stage>, names: seq<string>, registry: map<string, nat>, id: nat)
    requires RegistryOk(stage, names, registry) && id < |stage| && stage[id] in {Open, Astray}
    ensures RegistryOk(Moved(stage, id, Closing), names, registry)
  {
  }

  lemma ReplaceConn(s: State, id: nat, c: Conn, st: Stage)
    requires InvExcept(s, id) && ConnInv(c) && StageOk(c, if s.stage[id] == Astray then Astray else st)
    ensures ConnsOk(s.conns[id := c], Moved(s.stage, id, st))
  {
  }

  /** It closes: the close callback runs, and an open connection leaves the open stage. */
  lemma AbsorbClose(v: Server, s: State, id: nat, o: Outcome)
    requires InvExcept(s, id) && OutcomeOk(s, id, o) && Unique(s.names)
    requires s.stage[id] in {Open, Astray} && o.queued == [] && NotReadable(s.phase, id)
    requires o.conn.log.closes > s.conns[id].log.closes && o.conn.state == Disconnected
    requires if s.stage[id] == Open then !o.conn.log.removed && !o.conn.log.restarted else o.conn.log.restarted
    ensures Inv(Absorb(v, s, id, o))
  {
    var m := s.(conns := s.conns[id := o.conn]);
    assert s.queue + Tasks(id, []) == s.queue;
    TextsAppendOk(s.conns, Batch(s), s.queue, id, o.conn, []);
    CloseRemovals(s.stage, s.removals, id);
    ReplaceWalk(s.conns, s.stage, s.phase, id, o.conn);
    assert Batch(m) == Batch(s);
    if v.sameLoop {
      CloseWalk(m.conns, s.stage, s.phase, id, Erased);
      ReplaceConn(s, id, o.conn, Erased);
      RemoveOk(m, id);
      CloseShape(v, s, id, o, DoRemove(m, id));
    } else {
      CloseWalk(m.conns, s.stage, s.phase, id, Closing);
      ReplaceConn(s, id, o.conn, Closing);
      CloseTasks(s.stage, Batch(s), s.queue, id);
      CloseRegistry(s.stage, s.names, s.registry, id);
      CloseShape(v, s, id, o, m.(stage := Moved(s.stage, id, Closing), removals := s.removals + [id]));
    }
  }

  lemma CloseShape(v: Server, s: State, id: nat, o: Outcome, t: State)
    requires id < |s.conns| == |s.stage| == |s.names| && o.queued == [] && o.conn.log.closes > s.conns[id].log.closes
    requires if s.stage[id] == Astray then o.conn.log.restarted else !o.conn.log.restarted
    requires t == CloseCallback(v, s.(conns := s.conns[id := o.conn]), id)
    ensures Absorb(v, s, id, o) == t
  {
    assert s.queue + Tasks(id, []) == s.queue;
    if s.stage[id] == Astray {
      assert t.stage[id := Astray] == t.stage;
    }
  }

  /** Taking the first task out of the batch and moving its connection to the stage it leads to. */
  lemma PopTasks(stage: seq<Stage>, batch: seq<Task>, queue: seq<Task>)
    requires TasksOk(stage, batch, queue) && batch != []
    ensures var t := batch[0];
      && t.id < |stage|
      && (t.f == ConnectEstablished <==> stage[t.id] == Accepted)
      && (t.f == ConnectDestroyed ==> stage[t.id] in {Erased, Astray})
      && TasksOk(Moved(stage, t.id, After(t.f, stage[t.id])), batch[1..], queue)
  {
    var t := batch[0];
    forall x ensures Pending(batch, queue, x) == Pending(batch[1..], queue, x) + One(x == t) {
      PendingPop(batch, queue, x);
    }
    assert Pending(batch, queue, t) > 0 && t == Task(t.id, t.f);
  }

  function Popped(s: State): State
    requires s.phase.Draining? && s.phase.batch != [] && s.phase.batch[0].id < |s.stage|
  {
    var t := s.phase.batch[0];
    s.(phase := Draining(s.phase.batch[1..]), stage := Moved(s.stage, t.id, After(t.f, s.stage[t.id])))
  }

  /** A task is about to run. */
  predicate Popping(s: State)
  {
    s.phase.Draining? && s.phase.batch != [] && s.phase.batch[0].id < |s.conns|
  }

  lemma RunTaskIs(v: Server, s: State, w: WriteResult)
    requires |s.conns| == |s.stage| == |s.names| && Popping(s)
    ensures var t := s.phase.batch[0];
      Step(v, s, RunTask(w)) == Absorb(v, Popped(s), t.id, RunFunctor(s.conns[t.id], t.f, w))
  {
  }

  lemma AdvanceStage(stage: seq<Stage>, names: seq<string>, registry: map<string, nat>, removals: seq<nat>, id: nat, f: Functor)
    requires id < |stage| && (f == ConnectEstablished ==> stage[id] == Accepted)
    requires f == ConnectDestroyed ==> stage[id] in {Erased, Astray}
    requires RegistryOk(stage, names, registry) && RemovalsOk(stage, removals)
    ensures RegistryOk(Moved(stage, id, After(f, stage[id])), names, registry)
    ensures RemovalsOk(Moved(stage, id, After(f, stage[id])), removals)
  {
  }

  lemma PopTexts(conns: seq<Conn>, batch: seq<Task>, queue: seq<Task>)
    requires TextsOk(conns, batch, queue) && batch != [] && batch[0].id < |conns|
    ensures var t := batch[0]; Balanced(conns[t.id], PayloadOf(t.f) + Waiting(batch[1..], queue, t.id))
    ensures forall j :: 0 <= j < |conns| && j != batch[0].id ==> Balanced(conns[j], Waiting(batch[1..], queue, j))
  {
    var t := batch[0];
    Assoc(PayloadOf(t.f), QueuedText(batch[1..], t.id), QueuedText(queue, t.id));
    forall j | 0 <= j < |conns| && j != t.id ensures Waiting(batch, queue, j) == Waiting(batch[1..], queue, j) {
      assert [] + QueuedText(batch[1..], j) == QueuedText(batch[1..], j);
    }
  }

  lemma OthersOk(conns: seq<Conn>, stage: seq<Stage>, id: nat, st: Stage)
    requires ConnsOk(conns, stage) && id < |stage|
    ensures forall j :: 0 <= j < |conns| && j != id ==> ConnInv(conns[j]) && StageOk(conns[j], Moved(stage, id, st)[j])
  {
  }

  lemma PopOk(s: State)
    requires Inv(s) && s.phase.Draining? && s.phase.batch != [] && s.phase.batch[0].id < |s.conns|
    ensures InvExcept(Popped(s), s.phase.batch[0].id)
  {
    var t := s.phase.batch[0];
    PopTasks(s.stage, s.phase.batch, s.queue);
    PopTexts(s.conns, s.phase.batch, s.queue);
    AdvanceStage(s.stage, s.names, s.registry, s.removals, t.id, t.f);
    OthersOk(s.conns, s.stage, t.id, After(t.f, s.stage[t.id]));
    assert Batch(Popped(s)) == s.phase.batch[1..];
  }

  // ---------------------------------------------------------------------------
  // Every event keeps the invariant

  /** A public call leaves the account and the life of its connection in order. */
  lemma CallOutcome(c: Conn, st: Stage, call: UserCall, inLoop: bool, q: string, w: WriteResult)
    requires ConnInv(c) && StageOk(c, st) && Balanced(c, q) && c.state != Connecting
    ensures var o := DoUserCall(c, call, inLoop, w);
      && ConnInv(o.conn) && Balanced(o.conn, q + Payload(o.queued)) && Listens(c, o.conn)
      && ConnectEstablished !in o.queued && ConnectDestroyed !in o.queued
      && o.conn.log.closes == c.log.closes && st != Accepted
      && if o.conn.log.restarted then o.conn.state == Disconnected else StageOk(o.conn, st)
  {
    UserCallInv(c, call, inLoop, w);
    UserCallForward(c, call, inLoop, w);
    UserCallLife(c, call, inLoop, w);
    UserCallBalance(c, call, inLoop, q, w);
    UserCallListens(c, call, inLoop, w);
    UserCallRestarts(c, call, inLoop, w);
  }

  lemma CallKeepsInv(v: Server, s: State, id: nat, call: UserCall, inLoop: bool, w: WriteResult)
    requires Inv(s)
    ensures Inv(Step(v, s, Call(id, call, inLoop, w)))
  {
    if id < |s.conns| && s.conns[id].state != Connecting {
      var c, o := s.conns[id], DoUserCall(s.conns[id], call, inLoop, w);
      CallOutcome(c, s.stage[id], call, inLoop, Waiting(Batch(s), s.queue, id), w);
      if o.conn.log.restarted {
        AbsorbAstray(v, s, id, o);
      } else {
        AbsorbQuiet(v, s, id, o);
      }
    }
  }

  /** One event of the first channel of the active list is consumed. */
  lemma ConsumeWalk(conns: seq<Conn>, stage: seq<Stage>, active: seq<Ready>, h: Ready)
    requires WalkOk(conns, stage, Walking(active)) && active != [] && h.id == active[0].id && !h.readable
    ensures WalkOk(conns, stage, Walking([h] + active[1..])) && WalkOk(conns, stage, Walking(active[1..]))
    ensures NotReadable(Walking([h] + active[1..]), h.id)
  {
    var next := [h] + active[1..];
    assert forall i :: 0 < i < |next| ==> next[i] == active[i];
  }

  lemma ConsumeOk(s: State, h: Ready)
    requires Inv(s) && s.phase.Walking? && s.phase.active != [] && h.id == s.phase.active[0].id && !h.readable
    ensures InvExcept(s.(phase := Walking([h] + s.phase.active[1..])), h.id)
    ensures NotReadable(Walking([h] + s.phase.active[1..]), h.id)
  {
    ConsumeWalk(s.conns, s.stage, s.phase.active, h);
    assert Batch(s.(phase := Walking([h] + s.phase.active[1..]))) == Batch(s);
  }

  lemma ReadKeepsInv(v: Server, s: State, r: ReadResult, w: WriteResult)
    requires Inv(s) && Unique(s.names) && s.phase.Walking? && s.phase.active != [] && s.phase.active[0].readable
    ensures Inv(DoHandle(v, s, r, w))
  {
    var h := s.phase.active[0].(readable := false);
    var c, m := s.conns[h.id], s.(phase := Walking([h] + s.phase.active[1..]));
    var o, q := Outcome(DoHandleRead(c, r), []), Waiting(Batch(s), s.queue, h.id);
    ConsumeOk(s, h);
    HandleReadInv(c, r);
    HandleLife(c, r, w);
    ReadBalance(c, q, r);
    HandleListens(c, r, w);
    HandleRestarts(c, r, w);
    assert q + [] == q && Batch(m) == Batch(s);
    if r == Got([]) {
      AbsorbClose(v, m, h.id, o);
    } else {
      AbsorbQuiet(v, m, h.id, o);
    }
  }

  lemma WriteKeepsInv(v: Server, s: State, r: ReadResult, w: WriteResult)
    requires Inv(s) && s.phase.Walking? && s.phase.active != [] && !s.phase.active[0].readable
    ensures Inv(DoHandle(v, s, r, w))
  {
    var h := s.phase.active[0].(writable := false);
    var c, m := s.conns[h.id], s.(phase := Walking([h] + s.phase.active[1..]));
    if s.phase.active[0].writable {
      ConsumeOk(s, h);
      HandleWriteInv(c, w);
      HandleLife(c, r, w);
      WriteBalance(c, Waiting(Batch(s), s.queue, h.id), w);
      HandleListens(c, r, w);
      HandleRestarts(c, r, w);
      assert Waiting(Batch(s), s.queue, h.id) + [] == Waiting(Batch(s), s.queue, h.id) && Batch(m) == Batch(s);
      AbsorbQuiet(v, m, h.id, DoHandleWrite(c, w));
    } else {
      ConsumeWalk(s.conns, s.stage, s.phase.active, h);
      assert Batch(DoHandle(v, s, r, w)) == Batch(s);
    }
  }

  lemma HandleKeepsInv(v: Server, s: State, r: ReadResult, w: WriteResult)
    requires Inv(s) && Unique(s.names)
    ensures Inv(Step(v, s, Handle(r, w)))
  {
    if s.phase.Walking? && s.phase.active != [] && s.phase.active[0].id < |s.conns| {
      if s.phase.active[0].readable {
        ReadKeepsInv(v, s, r, w);
      } else {
        WriteKeepsInv(v, s, r, w);
      }
    }
  }

  /** What the record of a connection is after a functor of the loop has run. */
  lemma TaskOutcome(c: Conn, st: Stage, f: Functor, w: WriteResult)
    requires ConnInv(c) && StageOk(c, st) && (f == ConnectEstablished <==> st == Accepted)
    requires f == ConnectDestroyed ==> st in {Erased, Astray}
    ensures var d := RunFunctor(c, f, w).conn;
      && ConnInv(d) && Rank(c.state) <= Rank(d.state)
      && (d.log.closes > c.log.closes ==>
            Closes(c, d) && st == Open && After(f, st) == Open && !d.log.restarted && RunFunctor(c, f, w).queued == [])
      && (d.log.closes <= c.log.closes && !d.log.restarted ==> st != Astray && StageOk(d, After(f, st)))
      && (d.log.restarted ==> d.state == Disconnected && st != Accepted)
  {
    RunFunctorInv(c, f, w);
    FunctorRestarts(c, f, w);
    if f != ConnectEstablished && f != ConnectDestroyed {
      FunctorLife(c, f, w);
    }
  }

  lemma PoppedTask(s: State)
    requires Inv(s) && s.phase.Draining? && s.phase.batch != [] && s.phase.batch[0].id < |s.conns|
    ensures var t := s.phase.batch[0];
      && InvExcept(Popped(s), t.id)
      && (t.f == ConnectEstablished <==> s.stage[t.id] == Accepted)
      && (t.f == ConnectDestroyed ==> s.stage[t.id] in {Erased, Astray})
      && Popped(s).stage[t.id] != Accepted
  {
    PopOk(s);
    PopTasks(s.stage, s.phase.batch, s.queue);
  }

  lemma TaskQueues(conns: seq<Conn>, batch: seq<Task>, queue: seq<Task>, w: WriteResult)
    requires TextsOk(conns, batch, queue) && batch != [] && batch[0].id < |conns|
    requires batch[0].f == ConnectEstablished ==> conns[batch[0].id].state == Connecting
    ensures var t := batch[0]; var o := RunFunctor(conns[t.id], t.f, w);
      && Balanced(o.conn, Waiting(batch[1..], queue, t.id) + Payload(o.queued))
      && ConnectEstablished !in o.queued && ConnectDestroyed !in o.queued
  {
    var t := batch[0];
    var q := Waiting(batch[1..], queue, t.id);
    PopTexts(conns, batch, queue);
    FunctorBalance(conns[t.id], t.f, q, w);
    if t.f != ConnectEstablished && t.f != ConnectDestroyed {
      FunctorLife(conns[t.id], t.f, w);
    }
    assert q + [] == q;
  }

  lemma TaskKeepsInv(v: Server, s: State, w: WriteResult)
    requires Inv(s) && Unique(s.names)
    ensures Inv(Step(v, s, RunTask(w)))
  {
    if s.phase.Draining? && s.phase.batch != [] && s.phase.batch[0].id < |s.conns| {
      var t := s.phase.batch[0];
      var c, o := s.conns[t.id], RunFunctor(s.conns[t.id], t.f, w);
      PoppedTask(s);
      TaskQueues(s.conns, s.phase.batch, s.queue, w);
      TaskOutcome(c, s.stage[t.id], t.f, w);
      assert Batch(Popped(s)) == s.phase.batch[1..];
      if o.conn.log.closes > c.log.closes {
        AbsorbClose(v, Popped(s), t.id, o);
      } else if o.conn.log.restarted {
        AbsorbAstray(v, Popped(s), t.id, o);
      } else {
        AbsorbQuiet(v, Popped(s), t.id, o);
      }
      RunTaskIs(v, s, w);
    }
  }

  lemma AcceptTasks(stage: seq<Stage>, batch: seq<Task>, queue: seq<Task>)
    requires TasksOk(stage, batch, queue)
    ensures TasksOk(stage + [Accepted], batch, queue + [Task(|stage|, ConnectEstablished)])
    ensures TasksOk(stage + [Open], batch, queue)
  {
    var q := queue + [Task(|stage|, ConnectEstablished)];
    forall t ensures Pending(batch, q, t) == Pending(batch, queue, t) + One(t == Task(|stage|, ConnectEstablished)) {
      PendingAppend(batch, queue, [Task(|stage|, ConnectEstablished)], t);
    }
    forall id: nat | id != |stage| ensures StageAt(stage + [Accepted], id) == StageAt(stage, id) == StageAt(stage + [Open], id) {
    }
  }

  lemma AcceptRegistry(stage: seq<Stage>, names: seq<string>, registry: map<string, nat>, name: string, st: Stage)
    requires RegistryOk(stage, names, registry) && Unique(names + [name]) && Listed(st)
    ensures RegistryOk(stage + [st], names + [name], registry[name := |stage|])
  {
    forall id | 0 <= id < |stage| ensures names[id] != name {
      assert (names + [name])[id] == names[id] && (names + [name])[|names|] == name;
    }
  }

  lemma AcceptRemovals(stage: seq<Stage>, removals: seq<nat>, st: Stage)
    requires RemovalsOk(stage, removals) && st != Closing && st != Astray
    ensures RemovalsOk(stage + [st], removals)
  {
    forall id: nat ensures (StageAt(stage + [st], id) == Closing) == (StageAt(stage, id) == Closing) {
    }
    forall id: nat ensures StageAt(stage + [st], id) == Astray <==> StageAt(stage, id) == Astray {
    }
  }

  lemma AcceptConns(conns: seq<Conn>, stage: seq<Stage>, phase: Phase, c: Conn, st: Stage)
    requires ConnsOk(conns, stage) && ConnInv(c) && StageOk(c, st) && WalkOk(conns, stage, phase)
    ensures ConnsOk(conns + [c], stage + [st]) && WalkOk(conns + [c], stage + [st], phase)
  {
  }

  lemma AcceptTexts(conns: seq<Conn>, stage: seq<Stage>, batch: seq<Task>, queue: seq<Task>, c: Conn)
    requires TextsOk(conns, batch, queue) && TasksOk(stage, batch, queue) && |stage| == |conns|
    requires c.log == EmptyLog
    ensures TextsOk(conns + [c], batch, queue)
    ensures TextsOk(conns + [c], batch, queue + [Task(|conns|, ConnectEstablished)])
  {
    NoText(batch, |conns|);
    NoText(queue, |conns|);
    AppendTexts(conns, batch, queue, c);
    forall j ensures Waiting(batch, queue + [Task(|conns|, ConnectEstablished)], j) == Waiting(batch, queue, j) {
      NoPayloadQueued(batch, queue, |conns|, j);
    }
  }

  lemma AppendTexts(conns: seq<Conn>, batch: seq<Task>, queue: seq<Task>, c: Conn)
    requires TextsOk(conns, batch, queue) && c.log == EmptyLog
    requires QueuedText(batch, |conns|) == QueuedText(queue, |conns|) == []
    ensures TextsOk(conns + [c], batch, queue)
  {
    assert Balanced(c, []);
  }

  lemma NoPayloadQueued(batch: seq<Task>, queue: seq<Task>, id: nat, j: nat)
    ensures Waiting(batch, queue + [Task(id, ConnectEstablished)], j) == Waiting(batch, queue, j)
  {
    assert Tasks(id, [ConnectEstablished]) == [Task(id, ConnectEstablished)];
    SinglePayload(ConnectEstablished);
    WaitingAppend(batch, queue, id, [ConnectEstablished], j);
    assert Waiting(batch, queue, j) + [] == Waiting(batch, queue, j);
  }

  lemma {:induction false} NoText(ts: seq<Task>, id: nat)
    requires forall t :: t in multiset(ts) ==> t.id != id
    ensures QueuedText(ts, id) == []
  {
    if ts != [] {
      assert ts[0] in multiset(ts);
      assert forall t :: t in multiset(ts[1..]) ==> t in ts && t in multiset(ts);
      NoText(ts[1..], id);
    }
  }

  lemma AcceptKeepsInv(v: Server, s: State, notify: bool)
    requires Inv(s) && Unique(Step(v, s, Accept(notify)).names)
    ensures Inv(Step(v, s, Accept(notify)))
  {
    if |s.conns| + 1 < kMaxConnId {
      var st, c := Accepted, NewConn(notify);
      NewConnInv(notify);
      if v.sameLoop {
        EstablishedInv(c);
        st, c := Open, DoConnectEstablished(c);
      }
      AcceptConns(s.conns, s.stage, s.phase, c, st);
      AcceptTasks(s.stage, Batch(s), s.queue);
      AcceptRegistry(s.stage, s.names, s.registry, NameOf(v, |s.conns|), st);
      AcceptTexts(s.conns, s.stage, Batch(s), s.queue, c);
      AcceptRemovals(s.stage, s.removals, st);
      assert Batch(DoAccept(v, s, notify)) == Batch(s);
    }
  }

  lemma EraseConns(conns: seq<Conn>, stage: seq<Stage>, phase: Phase, id: nat)
    requires ConnsOk(conns, stage) && id < |stage| && stage[id] in {Closing, Astray} && WalkOk(conns, stage, phase)
    ensures ConnsOk(conns, Moved(stage, id, Erased)) && WalkOk(conns, Moved(stage, id, Erased), phase)
  {
  }

  lemma EraseRemovals(stage: seq<Stage>, removals: seq<nat>)
    requires RemovalsOk(stage, removals) && removals != []
    ensures removals[0] < |stage| && stage[removals[0]] in {Closing, Astray}
    ensures RemovalsOk(Moved(stage, removals[0], Erased), removals[1..])
  {
    var id := removals[0];
    assert removals == [id] + removals[1..];
    assert multiset(removals) == multiset{id} + multiset(removals[1..]);
    assert multiset(removals)[id] > 0;
    var next := Moved(stage, id, Erased);
    forall j: nat | StageAt(next, j) != Astray ensures multiset(removals[1..])[j] == One(StageAt(next, j) == Closing) {
      assert multiset(removals)[j] == multiset(removals[1..])[j] + One(j == id);
    }
  }

  lemma RemoveKeepsInv(v: Server, s: State)
    requires Inv(s) && Unique(s.names)
    ensures Inv(Step(v, s, Event.Remove))
  {
    if s.removals != [] && s.removals[0] < |s.conns| {
      var m, id := s.(removals := s.removals[1..]), s.removals[0];
      EraseRemovals(s.stage, s.removals);
      EraseConns(s.conns, s.stage, s.phase, id);
      assert Batch(m) == Batch(s);
      RemoveOk(m, id);
    }
  }

  /** A channel that epoll reports. */
  lemma ReportedStage(c: Conn, st: Stage)
    requires ConnInv(c) && StageOk(c, st) && c.channel.index == Added
    ensures Reported(c, st, c.channel.reading)
  {
  }

  lemma PollKeepsInv(v: Server, s: State, ready: seq<Ready>)
    requires Inv(s)
    ensures Inv(Step(v, s, Poll(ready)))
  {
    if s.phase.Polling? && Deliverable(s, ready) {
      forall i | 0 <= i < |ready|
        ensures Reported(s.conns[ready[i].id], s.stage[ready[i].id], ready[i].readable)
      {
        ReportedStage(s.conns[ready[i].id], s.stage[ready[i].id]);
      }
      assert Batch(s.(phase := Walking(ready))) == Batch(s) == [];
    }
  }

  lemma SwapTasks(stage: seq<Stage>, queue: seq<Task>)
    requires TasksOk(stage, [], queue)
    ensures TasksOk(stage, queue, [])
  {
    assert forall t :: Pending(queue, [], t) == Pending([], queue, t);
  }

  lemma SwapTexts(conns: seq<Conn>, queue: seq<Task>)
    requires TextsOk(conns, [], queue)
    ensures TextsOk(conns, queue, [])
  {
    forall id | 0 <= id < |conns| ensures Waiting(queue, [], id) == Waiting([], queue, id) {
      assert QueuedText(queue, id) + [] == [] + QueuedText(queue, id);
    }
  }

  lemma PhaseKeepsInv(v: Server, s: State)
    requires Inv(s)
    ensures Inv(Step(v, s, EndWalk)) && Inv(Step(v, s, EndDrain))
  {
    if s.phase == Walking([]) {
      SwapTasks(s.stage, s.queue);
      SwapTexts(s.conns, s.queue);
    }
  }

  lemma StepKeepsInv(v: Server, s: State, e: Event)
    requires Inv(s) && Unique(s.names) && Unique(Step(v, s, e).names)
    ensures Inv(Step(v, s, e))
  {
    match e
    case Accept(notify) => AcceptKeepsInv(v, s, notify);
    case Call(id, call, inLoop, w) => CallKeepsInv(v, s, id, call, inLoop, w);
    case Remove => RemoveKeepsInv(v, s);
    case Poll(ready) => PollKeepsInv(v, s, ready);
    case Handle(r, w) => HandleKeepsInv(v, s, r, w);
    case RunTask(w) => TaskKeepsInv(v, s, w);
    case EndWalk => PhaseKeepsInv(v, s);
    case EndDrain => PhaseKeepsInv(v, s);
  }

  // ---------------------------------------------------------------------------
  // Names

  /** Every connection carries its printed name. */
  predicate Named(v: Server, s: State)
  {
    && |s.names| == |s.conns| == |s.stage| < kMaxConnId
    && ByIndex(s.names, Names(v))
  }

  function Names(v: Server): nat -> string
  {
    (id: nat) => NameOf(v, id)
  }

  lemma AbsorbNamed(v: Server, s: State, id: nat, o: Outcome)
    requires Named(v, s) && id < |s.conns|
    ensures Named(v, Absorb(v, s, id, o)) && |Absorb(v, s, id, o).conns| == |s.conns|
  {
  }

  lemma AcceptNamed(v: Server, s: State, notify: bool)
    requires Named(v, s) && |s.conns| + 1 < kMaxConnId
    ensures Named(v, DoAccept(v, s, notify))
  {
    NextByIndex(s.names, Names(v));
  }

  lemma StepNamed(v: Server, s: State, e: Event)
    requires Named(v, s)
    ensures Named(v, Step(v, s, e)) && |s.conns| <= |Step(v, s, e).conns|
  {
    match e
    case Call(id, call, inLoop, w) =>
      if id < |s.conns| && s.conns[id].state != Connecting {
        AbsorbNamed(v, s, id, DoUserCall(s.conns[id], call, inLoop, w));
      }
    case Handle(r, w) =>
      if s.phase.Walking? && s.phase.active != [] && s.phase.active[0].id < |s.conns| {
        var h, rest := s.phase.active[0], s.phase.active[1..];
        AbsorbNamed(v, s.(phase := Walking([h.(readable := false)] + rest)), h.id, Outcome(DoHandleRead(s.conns[h.id], r), []));
        AbsorbNamed(v, s.(phase := Walking([h.(writable := false)] + rest)), h.id, DoHandleWrite(s.conns[h.id], w));
      }
    case RunTask(w) =>
      if s.phase.Draining? && s.phase.batch != [] && s.phase.batch[0].id < |s.conns| {
        AbsorbNamed(v, Popped(s), s.phase.batch[0].id, RunFunctor(s.conns[s.phase.batch[0].id], s.phase.batch[0].f, w));
      }
    case Accept(notify) =>
      if |s.conns| + 1 < kMaxConnId {
        AcceptNamed(v, s, notify);
      }
    case _ =>
  }

  lemma {:induction false} ExecNamed(v: Server, es: seq<Event>)
    ensures Named(v, Exec(v, Init, es))
  {
    if es != [] {
      ExecNamed(v, es[..|es| - 1]);
      StepNamed(v, Exec(v, Init, es[..|es| - 1]), es[|es| - 1]);
    }
  }

  lemma NamesDiffer(v: Server, i: nat, j: nat)
    requires i < j < kMaxConnId
    ensures Names(v)(i) != Names(v)(j)
  {
    NamesAlwaysDiffer(v.name, v.listen, i + 1, j + 1);
  }

  lemma NamedUnique(v: Server, names: seq<string>)
    requires ByIndex(names, Names(v)) && |names| < kMaxConnId
    ensures Unique(names)
  {
    forall i: nat, j: nat | i < j < |names| ensures names[i] != names[j] {
      NamesDiffer(v, i, j);
    }
  }

  /** The invariant holds after every run. */
  lemma {:induction false} ReactorInvariant(v: Server, es: seq<Event>)
    ensures Inv(Exec(v, Init, es))
  {
    if es == [] {
      InitInv();
    } else {
      var s, t := Exec(v, Init, es[..|es| - 1]), Exec(v, Init, es);
      ReactorInvariant(v, es[..|es| - 1]);
      ExecNamed(v, es[..|es| - 1]);
      ExecNamed(v, es);
      NamedUnique(v, s.names);
      NamedUnique(v, t.names);
      StepKeepsInv(v, s, es[|es| - 1]);
    }
  }

  lemma InitInv()
    ensures Inv(Init)
  {
  }

  // ---------------------------------------------------------------------------
  // What a step does to one connection

  /** Which connection acts in a step, and with what outcome. */
  function Acting(s: State, e: Event): Option<(nat, Outcome)>
  {
    match e
    case Call(id, call, inLoop, w) =>
      if id < |s.conns| && s.conns[id].state != Connecting then Some((id, DoUserCall(s.conns[id], call, inLoop, w))) else None
    case Handle(r, w) =>
      if s.phase.Walking? && s.phase.active != [] && s.phase.active[0].id < |s.conns| then
        var h := s.phase.active[0];
        if h.readable then Some((h.id, Outcome(DoHandleRead(s.conns[h.id], r), [])))
        else if h.writable then Some((h.id, DoHandleWrite(s.conns[h.id], w)))
        else None
      else None
    case RunTask(w) =>
      if s.phase.Draining? && s.phase.batch != [] && s.phase.batch[0].id < |s.conns| then
        var t := s.phase.batch[0];
        Some((t.id, RunFunctor(s.conns[t.id], t.f, w)))
      else None
    case _ => None
  }

  /** The record of connection id after the step. */
  function Acted(s: State, e: Event, id: nat): Conn
    requires id < |s.conns|
  {
    match Acting(s, e)
    case Some((j, o)) => if j == id then o.conn else s.conns[id]
    case None => s.conns[id]
  }

  lemma AbsorbConns(v: Server, s: State, id: nat, o: Outcome)
    requires id < |s.conns| == |s.stage| == |s.names|
    ensures Absorb(v, s, id, o).conns == s.conns[id := o.conn]
  {
  }

  /** Only the acting connection changes; a new one has no history. */
  lemma StepConns(v: Server, s: State, e: Event, id: nat)
    requires Named(v, s)
    ensures |s.conns| <= |Step(v, s, e).conns|
    ensures id < |s.conns| ==> Step(v, s, e).conns[id] == Acted(s, e, id)
    ensures |s.conns| <= id < |Step(v, s, e).conns| ==> Step(v, s, e).conns[id].log == EmptyLog
  {
    match e
    case Call(j, call, inLoop, w) =>
      if j < |s.conns| && s.conns[j].state != Connecting {
        AbsorbConns(v, s, j, DoUserCall(s.conns[j], call, inLoop, w));
      }
    case Handle(r, w) =>
      if s.phase.Walking? && s.phase.active != [] && s.phase.active[0].id < |s.conns| {
        var h, rest := s.phase.active[0], s.phase.active[1..];
        AbsorbConns(v, s.(phase := Walking([h.(readable := false)] + rest)), h.id, Outcome(DoHandleRead(s.conns[h.id], r), []));
        AbsorbConns(v, s.(phase := Walking([h.(writable := false)] + rest)), h.id, DoHandleWrite(s.conns[h.id], w));
      }
    case RunTask(w) =>
      if s.phase.Draining? && s.phase.batch != [] && s.phase.batch[0].id < |s.conns| {
        var t := s.phase.batch[0];
        AbsorbConns(v, Popped(s), t.id, RunFunctor(s.conns[t.id], t.f, w));
      }
    case Accept(notify) =>
    case Remove =>
    case _ => assert Step(v, s, e).conns == s.conns;
  }

  /** What every action keeps of a connection's history. */
  predicate Keeps(c: Conn, d: Conn)
  {
    && (c.log.revived ==> d.log.revived) && (c.log.removed ==> d.log.removed)
    && ShutsNow(c, d)
  }

  lemma ActKeeps(s: State, e: Event, id: nat)
    requires id < |s.conns|
    ensures Keeps(s.conns[id], Acted(s, e, id))
  {
    var c := s.conns[id];
    match e
    case Call(_, call, inLoop, w) =>
      UserCallRestarts(c, call, inLoop, w);
      UserCallLife(c, call, inLoop, w);
      UserCallShuts(c, call, inLoop, w);
    case Handle(r, w) =>
      HandleRestarts(c, r, w);
      HandleLife(c, r, w);
      HandleShuts(c, r, w);
    case RunTask(w) =>
      if s.phase.Draining? && s.phase.batch != [] {
        FunctorRestarts(c, s.phase.batch[0].f, w);
        FunctorShuts(c, s.phase.batch[0].f, w);
        FunctorRemoved(c, s.phase.batch[0].f, w);
      }
    case _ =>
  }

  lemma FunctorRemoved(c: Conn, f: Functor, w: WriteResult)
    ensures c.log.removed ==> RunFunctor(c, f, w).conn.log.removed
  {
  }

  lemma StepKeeps(v: Server, s: State, e: Event, id: nat)
    requires Named(v, s) && id < |s.conns|
    ensures id < |Step(v, s, e).conns| && Keeps(s.conns[id], Step(v, s, e).conns[id])
  {
    StepConns(v, s, e, id);
    ActKeeps(s, e, id);
  }

  // ---------------------------------------------------------------------------
  // What the invariant says

  function StageRank(st: Stage): nat
  {
    match st case Accepted => 0 case Open => 1 case Closing => 2 case Erased => 3 case Gone => 4 case Astray => 5
  }

  /** Neither the state of a connection nor its stage ever goes back. */
  predicate Forward(s: State, t: State)
  {
    && |s.conns| == |s.stage| <= |t.conns| == |t.stage|
    && forall id :: 0 <= id < |s.conns| ==>
         Rank(s.conns[id].state) <= Rank(t.conns[id].state) && StageRank(s.stage[id]) <= StageRank(t.stage[id])
  }

  lemma AbsorbForward(v: Server, s: State, id: nat, o: Outcome)
    requires id < |s.conns| == |s.stage| == |s.names| && Rank(s.conns[id].state) <= Rank(o.conn.state)
    requires o.conn.log.closes > s.conns[id].log.closes ==> s.stage[id] in {Open, Astray}
    ensures Forward(s, Absorb(v, s, id, o))
  {
  }

  lemma HandleForward(v: Server, s: State, r: ReadResult, w: WriteResult)
    requires Inv(s)
    ensures Forward(s, Step(v, s, Handle(r, w)))
  {
    if s.phase.Walking? && s.phase.active != [] && s.phase.active[0].id < |s.conns| {
      var h, rest := s.phase.active[0], s.phase.active[1..];
      var c := s.conns[h.id];
      HandleLife(c, r, w);
      if h.readable {
        HandleReadInv(c, r);
        AbsorbForward(v, s.(phase := Walking([h.(readable := false)] + rest)), h.id, Outcome(DoHandleRead(c, r), []));
      } else if h.writable {
        AbsorbForward(v, s.(phase := Walking([h.(writable := false)] + rest)), h.id, DoHandleWrite(c, w));
      }
    }
  }

  lemma PopForward(s: State)
    requires s.phase.Draining? && s.phase.batch != [] && TasksOk(s.stage, s.phase.batch, s.queue)
    requires s.phase.batch[0].id < |s.conns| == |s.stage|
    ensures Forward(s, Popped(s))
  {
    PopTasks(s.stage, s.phase.batch, s.queue);
  }

  lemma TaskForward(v: Server, s: State, w: WriteResult)
    requires Inv(s)
    ensures Forward(s, Step(v, s, RunTask(w)))
  {
    if s.phase.Draining? && s.phase.batch != [] && s.phase.batch[0].id < |s.conns| {
      var t := s.phase.batch[0];
      PopTasks(s.stage, s.phase.batch, s.queue);
      TaskOutcome(s.conns[t.id], s.stage[t.id], t.f, w);
      PopForward(s);
      AbsorbForward(v, Popped(s), t.id, RunFunctor(s.conns[t.id], t.f, w));
      ForwardTransitive(s, Popped(s), DoRunTask(v, s, w));
    }
  }

  lemma ForwardTransitive(s: State, t: State, u: State)
    requires Forward(s, t) && Forward(t, u)
    ensures Forward(s, u)
  {
  }

  lemma CallForward(v: Server, s: State, id: nat, call: UserCall, inLoop: bool, w: WriteResult)
    requires |s.conns| == |s.stage| == |s.names|
    ensures Forward(s, Step(v, s, Call(id, call, inLoop, w)))
  {
    if id < |s.conns| && s.conns[id].state != Connecting {
      UserCallForward(s.conns[id], call, inLoop, w);
      UserCallLife(s.conns[id], call, inLoop, w);
      AbsorbForward(v, s, id, DoUserCall(s.conns[id], call, inLoop, w));
    }
  }

  lemma RemoveForward(v: Server, s: State)
    requires |s.conns| == |s.stage| == |s.names| && RemovalsOk(s.stage, s.removals)
    ensures Forward(s, Step(v, s, Event.Remove))
  {
    if s.removals != [] && s.removals[0] < |s.conns| {
      EraseRemovals(s.stage, s.removals);
    }
  }

  lemma AcceptForward(v: Server, s: State, notify: bool)
    requires |s.conns| == |s.stage| == |s.names|
    ensures Forward(s, Step(v, s, Accept(notify)))
  {
  }

  lemma StepForward(v: Server, s: State, e: Event)
    requires Inv(s)
    ensures Forward(s, Step(v, s, e))
  {
    match e
    case Call(id, call, inLoop, w) => CallForward(v, s, id, call, inLoop, w);
    case Handle(r, w) => HandleForward(v, s, r, w);
    case RunTask(w) => TaskForward(v, s, w);
    case Remove => RemoveForward(v, s);
    case Accept(notify) => AcceptForward(v, s, notify);
    case _ => assert Step(v, s, e).conns == s.conns && Step(v, s, e).stage == s.stage;
  }

  lemma NextForward(v: Server, es: seq<Event>, e: Event)
    ensures Forward(Exec(v, Init, es), Exec(v, Init, es + [e]))
  {
    ReactorInvariant(v, es);
    ExecSnoc(v, Init, es, e);
    StepForward(v, Exec(v, Init, es), e);
  }

  lemma SelfForward(s: State)
    requires |s.conns| == |s.stage|
    ensures Forward(s, s)
  {
  }

  /** In every run, the lifecycle of every connection moves forward only. */
  lemma {:induction false} LifecycleMovesForward(v: Server, es: seq<Event>, fs: seq<Event>)
    ensures Forward(Exec(v, Init, es), Exec(v, Init, es + fs))
  {
    if fs == [] {
      ExecNamed(v, es);
      SelfForward(Exec(v, Init, es));
      assert es + fs == es;
    } else {
      var before := es + fs[..|fs| - 1];
      LifecycleMovesForward(v, es, fs[..|fs| - 1]);
      NextForward(v, before, fs[|fs| - 1]);
      assert fs == fs[..|fs| - 1] + [fs[|fs| - 1]];
      Assoc(es, fs[..|fs| - 1], [fs[|fs| - 1]]);
      ForwardTransitive(Exec(v, Init, es), Exec(v, Init, before), Exec(v, Init, es + fs));
    }
  }

  lemma ExecSnoc(v: Server, s: State, es: seq<Event>, e: Event)
    ensures Exec(v, s, es + [e]) == Step(v, Exec(v, s, es), e)
  {
    assert (es + [e])[..|es|] == es;
  }

  /** A shared_ptr to the connection that the reactor itself holds. */
  predicate Held(s: State, id: nat)
    requires |s.names| == |s.conns| && id < |s.conns|
  {
    || (s.names[id] in s.registry && s.registry[s.names[id]] == id)
    || id in s.removals
    || Task(id, ConnectDestroyed) in Batch(s) || Task(id, ConnectDestroyed) in s.queue
  }

  /** A connection that is not yet destroyed is kept alive by the map, a removal or its own destruction. */
  lemma AliveUntilDestroyed(s: State, id: nat)
    requires Inv(s) && id < |s.conns| && s.stage[id] != Gone && s.stage[id] != Astray
    ensures Held(s, id)
  {
    if s.stage[id] == Erased {
      assert Pending(Batch(s), s.queue, Task(id, ConnectDestroyed)) == 1;
    } else if s.stage[id] == Closing {
      assert multiset(s.removals)[id] == 1;
    }
  }

  /** The close callback fires once, and it is what takes a connection out of the open stage. */
  lemma {:induction false} CloseCallbackOnce(v: Server, es: seq<Event>, id: nat)
    requires id < |Exec(v, Init, es).conns| && !Exec(v, Init, es).conns[id].log.restarted
    ensures var s := Exec(v, Init, es);
      |s.stage| == |s.conns| && s.conns[id].log.closes == if s.stage[id].Accepted? || s.stage[id].Open? then 0 else 1
  {
    ReactorInvariant(v, es);
  }

  /**
   * connections_ holds no connection but under its own name, and, of those whose
   * reading was not started after the close, exactly the ones accepted and not
   * yet removed.
   */
  lemma {:induction false} RegistryExact(v: Server, es: seq<Event>)
    ensures var s := Exec(v, Init, es);
      && |s.stage| == |s.names| == |s.conns|
      && (forall id :: 0 <= id < |s.conns| && !s.conns[id].log.restarted ==>
            (Listed(s.stage[id]) <==> s.names[id] in s.registry && s.registry[s.names[id]] == id))
      && (forall n :: n in s.registry ==> s.registry[n] < |s.conns| && s.names[s.registry[n]] == n)
      && (forall i, j :: 0 <= i < j < |s.names| ==> s.names[i] != s.names[j])
  {
    ReactorInvariant(v, es);
    ExecNamed(v, es);
    NamedUnique(v, Exec(v, Init, es).names);
    RegistryMeans(Exec(v, Init, es));
  }

  lemma RegistryMeans(s: State)
    requires RegistryOk(s.stage, s.names, s.registry) && ConnsOk(s.conns, s.stage)
    ensures forall id :: 0 <= id < |s.conns| && !s.conns[id].log.restarted ==>
      (Listed(s.stage[id]) <==> s.names[id] in s.registry && s.registry[s.names[id]] == id)
  {
    forall id | 0 <= id < |s.conns| && !s.conns[id].log.restarted
      ensures Listed(s.stage[id]) <==> s.names[id] in s.registry && s.registry[s.names[id]] == id
    {
      assert StageOk(s.conns[id], s.stage[id]);
    }
  }

  /** connectDestroyed is queued only when connectEstablished has run, and then once. */
  lemma {:induction false} EstablishPrecedesDestroy(v: Server, es: seq<Event>, id: nat)
    requires Pending(Batch(Exec(v, Init, es)), Exec(v, Init, es).queue, Task(id, ConnectDestroyed)) > 0
    ensures var s := Exec(v, Init, es);
      && id < |s.conns| && s.conns[id].state == Disconnected
      && Pending(Batch(s), s.queue, Task(id, ConnectEstablished)) == 0
      && (!s.conns[id].log.restarted ==> Pending(Batch(s), s.queue, Task(id, ConnectDestroyed)) == 1)
  {
    ReactorInvariant(v, es);
    var s := Exec(v, Init, es);
    assert StageAt(s.stage, id) in {Erased, Astray};
  }

  // ---------------------------------------------------------------------------
  // The active list

  /**
   * While the active list is walked, each of its channels is registered with the
   * poller, and its connection is alive and not destroyed, unless a read control
   * was used on it after its close or removal.
   */
  lemma {:induction false} ActiveListStable(v: Server, es: seq<Event>, i: nat)
    requires Exec(v, Init, es).phase.Walking? && i < |Exec(v, Init, es).phase.active|
    ensures var s := Exec(v, Init, es); var id := s.phase.active[i].id;
      && id < |s.conns| == |s.names|
      && s.conns[id].channel.index != New
      && (s.conns[id].log.removed ==> s.conns[id].log.revived)
      && (!s.conns[id].log.revived && !s.conns[id].log.restarted ==> Held(s, id))
  {
    ReactorInvariant(v, es);
    ActiveOk(Exec(v, Init, es), i);
  }

  lemma ActiveOk(s: State, i: nat)
    requires Inv(s) && s.phase.Walking? && i < |s.phase.active|
    ensures var id := s.phase.active[i].id;
      && id < |s.conns| == |s.names|
      && s.conns[id].channel.index != New
      && (s.conns[id].log.removed ==> s.conns[id].log.revived)
      && (!s.conns[id].log.revived && !s.conns[id].log.restarted ==> Held(s, id))
  {
    var id := s.phase.active[i].id;
    if !s.conns[id].log.revived && !s.conns[id].log.restarted {
      AliveUntilDestroyed(s, id);
    }
  }

  predicate Reports(ready: seq<Ready>, id: nat)
  {
    exists i :: 0 <= i < |ready| && ready[i].id == id
  }

  /** epoll may report connection id. */
  ghost predicate Reportable(s: State, id: nat)
  {
    exists ready :: Deliverable(s, ready) && Reports(ready, id)
  }

  lemma ReportableIff(s: State, id: nat)
    requires id < |s.conns|
    ensures Reportable(s, id) <==> s.conns[id].channel.index == Added
  {
    if s.conns[id].channel.index == Added {
      var ready := [Ready(id, false, false)];
      assert ready[0].id == id && Deliverable(s, ready) && Reports(ready, id);
    }
  }

  /**
   * Once removed, a connection can be in a later active list if and only if
   * stopReadInLoop has acted on it since (startReadInLoop has not).
   */
  lemma {:induction false} ReportedAfterRemovalIff(v: Server, es: seq<Event>, id: nat)
    requires id < |Exec(v, Init, es).conns|
    requires var c := Exec(v, Init, es).conns[id]; c.log.removed && !c.log.restarted
    ensures Reportable(Exec(v, Init, es), id) <==> Exec(v, Init, es).conns[id].log.revived
  {
    ReactorInvariant(v, es);
    ReportableIff(Exec(v, Init, es), id);
  }

  /** And stopRead after the removal has that effect if and only if reading_ is still set when it is called. */
  lemma {:induction false} StopReadAfterRemovalIff(v: Server, es: seq<Event>, id: nat, w: WriteResult)
    requires id < |Exec(v, Init, es).conns|
    requires var c := Exec(v, Init, es).conns[id]; c.log.removed && !c.log.restarted && !c.log.revived
    ensures Reportable(Exec(v, Init, es + [Call(id, StopRead, true, w)]), id) <==> Exec(v, Init, es).conns[id].reading
  {
    var e := Call(id, StopRead, true, w);
    var s, t := Exec(v, Init, es), Exec(v, Init, es + [e]);
    ReactorInvariant(v, es);
    ExecSnoc(v, Init, es, e);
    StopReadRevivesIff(s.conns[id]);
    assert t.conns[id] == DoStopReadInLoop(s.conns[id]);
    ReportableIff(t, id);
  }

  predicate RemovedAt(v: Server, es: seq<Event>, id: nat)
  {
    id < |Exec(v, Init, es).conns| && Exec(v, Init, es).conns[id].log.removed
  }

  predicate RevivedAt(v: Server, es: seq<Event>, id: nat)
  {
    id < |Exec(v, Init, es).conns| && Exec(v, Init, es).conns[id].log.revived
  }

  predicate Walked(s: State, id: nat)
  {
    s.phase.Walking? && exists i :: 0 <= i < |s.phase.active| && s.phase.active[i].id == id
  }

  lemma NextKeeps(v: Server, es: seq<Event>, e: Event, id: nat)
    ensures RemovedAt(v, es, id) ==> RemovedAt(v, es + [e], id)
    ensures RevivedAt(v, es, id) ==> RevivedAt(v, es + [e], id)
  {
    ExecNamed(v, es);
    ExecSnoc(v, Init, es, e);
    if id < |Exec(v, Init, es).conns| {
      StepKeeps(v, Exec(v, Init, es), e, id);
    }
  }

  lemma {:induction false} StaysSo(v: Server, es: seq<Event>, fs: seq<Event>, id: nat)
    ensures RemovedAt(v, es, id) ==> RemovedAt(v, es + fs, id)
    ensures RevivedAt(v, es, id) ==> RevivedAt(v, es + fs, id)
  {
    if fs == [] {
      assert es + fs == es;
    } else {
      var before, last := es + fs[..|fs| - 1], fs[|fs| - 1];
      StaysSo(v, es, fs[..|fs| - 1], id);
      NextKeeps(v, before, last, id);
      assert es + fs == before + [last];
    }
  }

  /**
   * Over any continuation xs + ys of a run in which no read control acts on a
   * removed connection: all the while it stays removed and is in no active list.
   */
  lemma {:induction false} RemovedStaysOut(v: Server, es: seq<Event>, xs: seq<Event>, ys: seq<Event>, id: nat)
    requires RemovedAt(v, es, id) && !RevivedAt(v, es + xs + ys, id)
    ensures RemovedAt(v, es + xs, id) && !RevivedAt(v, es + xs, id)
    ensures !Walked(Exec(v, Init, es + xs), id)
  {
    StaysSo(v, es, xs, id);
    StaysSo(v, es + xs, ys, id);
    NotWalked(v, es + xs, id);
  }

  lemma NotWalked(v: Server, es: seq<Event>, id: nat)
    requires RemovedAt(v, es, id) && !RevivedAt(v, es, id)
    ensures !Walked(Exec(v, Init, es), id)
  {
    if Walked(Exec(v, Init, es), id) {
      var i :| 0 <= i < |Exec(v, Init, es).phase.active| && Exec(v, Init, es).phase.active[i].id == id;
      ActiveListStable(v, es, i);
    }
  }

  // ---------------------------------------------------------------------------
  // What is queued before the destruction

  /** The functors of send() and shutdown(). Like those of the two read controls, they hold a bare pointer. */
  predicate Bound(f: Functor)
  {
    f.SendInLoop? || f.ShutdownInLoop?
  }

  /** Everything still to be run, in order. */
  function All(s: State): seq<Task>
  {
    Batch(s) + s.queue
  }

  /** A bound functor finds its connection not destroyed, and no destruction is in front of it. */
  predicate Ordered(conns: seq<Conn>, all: seq<Task>)
  {
    forall j :: 0 <= j < |all| && Bound(all[j].f) ==>
      && all[j].id < |conns| && !conns[all[j].id].log.removed
      && (all[j].f == ShutdownInLoop ==> Rank(conns[all[j].id].state) >= 2)
      && Task(all[j].id, ConnectDestroyed) !in all[..j]
  }

  predicate NoneBound(all: seq<Task>, id: nat)
  {
    forall t :: t in all && t.id == id ==> !Bound(t.f)
  }

  lemma OrderedAppend(conns: seq<Conn>, all: seq<Task>, id: nat, fs: seq<Functor>)
    requires Ordered(conns, all) && id < |conns|
    requires ConnectDestroyed !in fs || forall f :: f in fs ==> !Bound(f)
    requires (exists f :: f in fs && Bound(f)) ==> !conns[id].log.removed && Task(id, ConnectDestroyed) !in all
    requires ShutdownInLoop in fs ==> Rank(conns[id].state) >= 2
    ensures Ordered(conns, all + Tasks(id, fs))
  {
    var next := all + Tasks(id, fs);
    forall j | 0 <= j < |next| && Bound(next[j].f)
      ensures next[j].id < |conns| && !conns[next[j].id].log.removed
      ensures next[j].f == ShutdownInLoop ==> Rank(conns[next[j].id].state) >= 2
      ensures Task(next[j].id, ConnectDestroyed) !in next[..j]
    {
      if j < |all| {
        assert next[j] == all[j] && next[..j] == all[..j];
      } else {
        assert next[j] == Task(id, fs[j - |all|]) && fs[j - |all|] in fs;
        assert next[..j] == all + Tasks(id, fs)[..j - |all|];
      }
    }
  }

  lemma OrderedReplace(conns: seq<Conn>, all: seq<Task>, id: nat, c: Conn)
    requires Ordered(conns, all) && id < |conns| && Rank(conns[id].state) <= Rank(c.state)
    requires c.log.removed ==> conns[id].log.removed || NoneBound(all, id)
    ensures Ordered(conns[id := c], all)
  {
  }

  lemma OrderedPop(conns: seq<Conn>, all: seq<Task>)
    requires Ordered(conns, all) && all != []
    ensures Ordered(conns, all[1..])
    ensures all[0].f == ConnectDestroyed ==> NoneBound(all[1..], all[0].id)
  {
    forall j | 0 < j < |all| ensures all[1..][..j - 1] == all[..j][1..] && all[..j][0] == all[0] {
    }
    forall t | t in all[1..] && all[0] == Task(t.id, ConnectDestroyed) ensures !Bound(t.f) {
      var j :| 0 < j < |all| && all[j] == t;
      assert all[0] in all[..j];
    }
  }

  lemma AbsorbAll(v: Server, s: State, id: nat, o: Outcome)
    requires id < |s.conns| == |s.stage| == |s.names|
    ensures var t := Absorb(v, s, id, o);
      t.conns == s.conns[id := o.conn]
      && All(t) == All(s) + Tasks(id, o.queued) +
           if o.conn.log.closes > s.conns[id].log.closes && v.sameLoop then Tasks(id, [ConnectDestroyed]) else []
  {
    var t := Absorb(v, s, id, o);
    assert Batch(t) == Batch(s) && Tasks(id, [ConnectDestroyed]) == [Task(id, ConnectDestroyed)];
    Assoc(Batch(s), s.queue, Tasks(id, o.queued));
    Assoc(Batch(s), s.queue + Tasks(id, o.queued), [Task(id, ConnectDestroyed)]);
    assert All(s) + Tasks(id, o.queued) + [] == All(s) + Tasks(id, o.queued);
  }

  lemma AbsorbOrdered(v: Server, s: State, id: nat, o: Outcome)
    requires id < |s.conns| == |s.stage| == |s.names| && Ordered(s.conns, All(s))
    requires Rank(s.conns[id].state) <= Rank(o.conn.state)
    requires o.conn.log.removed ==> s.conns[id].log.removed || NoneBound(All(s), id)
    requires ConnectDestroyed !in o.queued
    requires (exists f :: f in o.queued && Bound(f)) ==> !o.conn.log.removed && Task(id, ConnectDestroyed) !in All(s)
    requires ShutdownInLoop in o.queued ==> Rank(o.conn.state) >= 2
    ensures Ordered(Absorb(v, s, id, o).conns, All(Absorb(v, s, id, o)))
  {
    var conns := s.conns[id := o.conn];
    AbsorbAll(v, s, id, o);
    OrderedReplace(s.conns, All(s), id, o.conn);
    OrderedAppend(conns, All(s), id, o.queued);
    OrderedAppend(conns, All(s) + Tasks(id, o.queued), id, [ConnectDestroyed]);
    assert All(s) + Tasks(id, o.queued) + [] == All(s) + Tasks(id, o.queued);
  }

  /** send() and shutdown() queue their functors only while the connection is connected. */
  lemma BoundWhileConnected(c: Conn, call: UserCall, inLoop: bool, w: WriteResult, f: Functor)
    requires f in DoUserCall(c, call, inLoop, w).queued && Bound(f)
    ensures c.state == Connected && (f == ShutdownInLoop ==> DoUserCall(c, call, inLoop, w).conn.state == Disconnecting)
  {
    if call.Send? || call.SendBuffer? {
      SendForward(c, call.data, inLoop, w);
    }
  }

  lemma NoDestroyPending(s: State, id: nat)
    requires TasksOk(s.stage, Batch(s), s.queue) && StageAt(s.stage, id) == Open
    ensures Task(id, ConnectDestroyed) !in All(s)
  {
    assert Pending(Batch(s), s.queue, Task(id, ConnectDestroyed)) == 0;
    assert Task(id, ConnectDestroyed) !in multiset(Batch(s)) && Task(id, ConnectDestroyed) !in multiset(s.queue);
  }

  lemma CallOrdered(v: Server, s: State, id: nat, call: UserCall, inLoop: bool, w: WriteResult)
    requires Inv(s) && Ordered(s.conns, All(s))
    ensures var t := Step(v, s, Call(id, call, inLoop, w)); Ordered(t.conns, All(t))
  {
    if id < |s.conns| && s.conns[id].state != Connecting {
      var c, o := s.conns[id], DoUserCall(s.conns[id], call, inLoop, w);
      UserCallForward(c, call, inLoop, w);
      UserCallLife(c, call, inLoop, w);
      forall f | f in o.queued && Bound(f)
        ensures !o.conn.log.removed && Task(id, ConnectDestroyed) !in All(s)
        ensures f == ShutdownInLoop ==> Rank(o.conn.state) >= 2
      {
        BoundWhileConnected(c, call, inLoop, w, f);
        assert StageOk(c, s.stage[id]);
        NoDestroyPending(s, id);
      }
      AbsorbOrdered(v, s, id, o);
    }
  }

  lemma HandleOrdered(v: Server, s: State, r: ReadResult, w: WriteResult)
    requires |s.conns| == |s.stage| == |s.names| && Ordered(s.conns, All(s))
    ensures var t := Step(v, s, Handle(r, w)); Ordered(t.conns, All(t))
  {
    if s.phase.Walking? && s.phase.active != [] && s.phase.active[0].id < |s.conns| {
      var h, rest := s.phase.active[0], s.phase.active[1..];
      var c := s.conns[h.id];
      HandleLife(c, r, w);
      if h.readable {
        var m := s.(phase := Walking([h.(readable := false)] + rest));
        assert All(m) == All(s);
        AbsorbOrdered(v, m, h.id, Outcome(DoHandleRead(c, r), []));
      } else if h.writable {
        var m := s.(phase := Walking([h.(writable := false)] + rest));
        assert All(m) == All(s);
        AbsorbOrdered(v, m, h.id, DoHandleWrite(c, w));
      } else {
        assert All(Step(v, s, Handle(r, w))) == All(s);
      }
    }
  }

  lemma FunctorQueues(c: Conn, f: Functor, w: WriteResult)
    ensures forall g :: g in RunFunctor(c, f, w).queued ==> g == WriteComplete
    ensures f != ConnectDestroyed ==> RunFunctor(c, f, w).conn.log.removed == c.log.removed
  {
  }

  lemma PoppedOrdered(s: State)
    requires s.phase.Draining? && s.phase.batch != [] && s.phase.batch[0].id < |s.conns| == |s.stage|
    requires Ordered(s.conns, All(s))
    ensures Ordered(s.conns, All(Popped(s)))
    ensures s.phase.batch[0].f == ConnectDestroyed ==> NoneBound(All(Popped(s)), s.phase.batch[0].id)
  {
    OrderedPop(s.conns, All(s));
    assert All(Popped(s)) == All(s)[1..] && All(s)[0] == s.phase.batch[0];
  }

  lemma TaskOrdered(v: Server, s: State, w: WriteResult)
    requires ConnsOk(s.conns, s.stage) && TasksOk(s.stage, Batch(s), s.queue) && |s.names| == |s.conns|
    requires Ordered(s.conns, All(s))
    ensures var t := Step(v, s, RunTask(w)); Ordered(t.conns, All(t))
  {
    if s.phase.Draining? && s.phase.batch != [] && s.phase.batch[0].id < |s.conns| {
      var x := s.phase.batch[0];
      TaskForwardOnly(s, w);
      FunctorQueues(s.conns[x.id], x.f, w);
      PoppedOrdered(s);
      AbsorbOrdered(v, Popped(s), x.id, RunFunctor(s.conns[x.id], x.f, w));
      RunTaskIs(v, s, w);
    }
  }

  lemma TaskForwardOnly(s: State, w: WriteResult)
    requires ConnsOk(s.conns, s.stage) && TasksOk(s.stage, Batch(s), s.queue)
    requires s.phase.Draining? && s.phase.batch != [] && s.phase.batch[0].id < |s.conns|
    ensures var x := s.phase.batch[0]; Rank(s.conns[x.id].state) <= Rank(RunFunctor(s.conns[x.id], x.f, w).conn.state)
  {
    PopTasks(s.stage, s.phase.batch, s.queue);
    TaskOutcome(s.conns[s.phase.batch[0].id], s.stage[s.phase.batch[0].id], s.phase.batch[0].f, w);
  }

  lemma OrderedMore(conns: seq<Conn>, more: seq<Conn>, all: seq<Task>)
    requires Ordered(conns, all) && conns <= more
    ensures Ordered(more, all)
  {
  }

  lemma AcceptOrdered(v: Server, s: State, notify: bool)
    requires |s.conns| == |s.stage| == |s.names| && Ordered(s.conns, All(s))
    ensures var t := Step(v, s, Accept(notify)); Ordered(t.conns, All(t))
  {
    var t := Step(v, s, Accept(notify));
    if |s.conns| + 1 < kMaxConnId {
      var more := [Task(|s.conns|, ConnectEstablished)];
      OrderedMore(s.conns, t.conns, All(s));
      OrderedAppend(t.conns, All(s), |s.conns|, [ConnectEstablished]);
      assert Tasks(|s.conns|, [ConnectEstablished]) == more;
      Assoc(Batch(s), s.queue, more);
      assert All(t) == if v.sameLoop then All(s) else All(s) + more;
    }
  }

  lemma OthersOrdered(v: Server, s: State, e: Event)
    requires Inv(s) && Ordered(s.conns, All(s)) && (e.Remove? || e.Poll? || e.EndWalk? || e.EndDrain?)
    ensures Ordered(Step(v, s, e).conns, All(Step(v, s, e)))
  {
    var t := Step(v, s, e);
    if e.Remove? && s.removals != [] && s.removals[0] < |s.conns| {
      assert Batch(t) == Batch(s) && Tasks(s.removals[0], [ConnectDestroyed]) == [Task(s.removals[0], ConnectDestroyed)];
      Assoc(Batch(s), s.queue, [Task(s.removals[0], ConnectDestroyed)]);
      OrderedAppend(s.conns, All(s), s.removals[0], [ConnectDestroyed]);
    } else {
      assert t.conns == s.conns && [] + s.queue == s.queue + [] && All(t) == All(s);
    }
  }

  lemma StepOrdered(v: Server, s: State, e: Event)
    requires Inv(s) && Ordered(s.conns, All(s))
    ensures Ordered(Step(v, s, e).conns, All(Step(v, s, e)))
  {
    match e
    case Call(id, call, inLoop, w) => CallOrdered(v, s, id, call, inLoop, w);
    case Handle(r, w) => HandleOrdered(v, s, r, w);
    case RunTask(w) => TaskOrdered(v, s, w);
    case Accept(notify) => AcceptOrdered(v, s, notify);
    case _ => OthersOrdered(v, s, e);
  }

  lemma {:induction false} ExecOrdered(v: Server, es: seq<Event>)
    ensures Ordered(Exec(v, Init, es).conns, All(Exec(v, Init, es)))
  {
    if es != [] {
      ExecOrdered(v, es[..|es| - 1]);
      ReactorInvariant(v, es[..|es| - 1]);
      StepOrdered(v, Exec(v, Init, es[..|es| - 1]), es[|es| - 1]);
    }
  }

  /**
   * In every run a queued functor of send() or shutdown() is in front of the
   * destruction of its connection, if that is queued, and runs on a connection
   * that is not destroyed and that the reactor itself holds (unless its reading
   * was started after the close).
   */
  lemma {:induction false} QueuedSendsFindTheirConnection(v: Server, es: seq<Event>, j: nat)
    ensures var s := Exec(v, Init, es); j < |All(s)| && Bound(All(s)[j].f) ==>
      var id := All(s)[j].id;
      && id < |s.conns| == |s.names| && !s.conns[id].log.removed
      && Task(id, ConnectDestroyed) !in All(s)[..j]
      && (!s.conns[id].log.restarted ==> Held(s, id))
  {
    var s := Exec(v, Init, es);
    ExecOrdered(v, es);
    ReactorInvariant(v, es);
    ExecNamed(v, es);
    if j < |All(s)| && Bound(All(s)[j].f) {
      HeldWhileNotRemoved(s, All(s)[j].id);
    }
  }

  lemma HeldWhileNotRemoved(s: State, id: nat)
    requires Inv(s) && id < |s.conns| && !s.conns[id].log.removed
    ensures |s.names| == |s.conns| && (!s.conns[id].log.restarted ==> Held(s, id))
  {
    if !s.conns[id].log.restarted {
      assert StageOk(s.conns[id], s.stage[id]);
      AliveUntilDestroyed(s, id);
    }
  }

  // ---------------------------------------------------------------------------
  // Output

  /**
   * Output of any connection over any run: what the socket took, followed by the
   * output buffer, is what sendInLoop was given less the dropped messages, and
   * the channel waits for writability exactly while something is buffered.
   */
  lemma {:induction false} OutputConserved(v: Server, es: seq<Event>, id: nat)
    requires id < |Exec(v, Init, es).conns|
    ensures var c := Exec(v, Init, es).conns[id];
      && c.log.kernel + c.output == Delivered(c.log.sent)
      && (c.state != Disconnected ==> (c.channel.writing <==> c.output != []))
      && (forall sh :: sh in c.log.shutdowns && sh.state != Disconnected ==> sh.kernel == Delivered(sh.sent))
  {
    ReactorInvariant(v, es);
  }

  /** The head of the active list is connection id. */
  predicate AtHead(s: State, id: nat)
  {
    s.phase.Walking? && s.phase.active != [] && s.phase.active[0].id == id < |s.conns|
  }

  /** The text that a step hands to sendInLoop of connection id before its close. */
  function HandedBy(s: State, e: Event, id: nat): Option<string>
    requires id < |s.conns|
  {
    match e
    case Call(j, call, inLoop, _) =>
      if j == id && s.conns[id].state == Connected && inLoop && (call.Send? || call.SendBuffer?) then Some(call.data) else None
    case RunTask(_) =>
      if Popping(s) && s.phase.batch[0].id == id && s.phase.batch[0].f.SendInLoop? && s.conns[id].state != Disconnected
      then Some(s.phase.batch[0].f.data) else None
    case _ => None
  }

  /** What a step offers to the socket of connection id: all that is buffered, or a text that finds nothing buffered. */
  function OfferedBy(s: State, e: Event, id: nat): Option<string>
  {
    if id >= |s.conns| then None
    else if e.Handle? then
      if AtHead(s, id) && !s.phase.active[0].readable && s.phase.active[0].writable && s.conns[id].channel.writing
      then Some(s.conns[id].output) else None
    else if s.conns[id].output == [] then HandedBy(s, e, id)
    else None
  }

  /** The bytes of it that the socket takes. */
  function TakenBy(s: State, e: Event, id: nat): string
  {
    match (OfferedBy(s, e, id), WriteIn(e))
    case (Some(text), Wrote(n)) => if n < |text| then text[..n] else text
    case _ => []
  }

  /** What the socket of connection id has taken in a run. */
  function TakenBySocket(v: Server, es: seq<Event>, id: nat): string
  {
    if es == [] then [] else
    TakenBySocket(v, es[..|es| - 1], id) + TakenBy(Exec(v, Init, es[..|es| - 1]), es[|es| - 1], id)
  }

  /** What a step reads from the socket of connection id. */
  function ReadBy(s: State, e: Event, id: nat): string
  {
    if e.Handle? && e.r.Got? && AtHead(s, id) && s.phase.active[0].readable then e.r.bytes else []
  }

  /** What was read from the socket of connection id in a run. */
  function Received(v: Server, es: seq<Event>, id: nat): string
  {
    if es == [] then [] else
    Received(v, es[..|es| - 1], id) + ReadBy(Exec(v, Init, es[..|es| - 1]), es[|es| - 1], id)
  }

  predicate Streams(c: Conn, d: Conn, taken: string, read: string)
  {
    d.log.kernel == c.log.kernel + taken && d.input == c.input + read && d.notify == c.notify
  }

  lemma SameStreams(c: Conn, d: Conn)
    requires d.log.kernel == c.log.kernel && d.input == c.input && d.notify == c.notify
    ensures Streams(c, d, [], [])
  {
  }

  lemma SendStreams(c: Conn, data: string, direct: bool, w: WriteResult)
    requires WriteInterest(c) && c.state != Disconnected
    ensures Streams(c, DoSendInLoop(c, data, direct, w).conn,
      if c.output == [] && w.Wrote? then (if w.n < |data| then data[..w.n] else data) else [], [])
  {
    assert data[..|data|] == data;
    var d := DoSendInLoop(c, data, direct, w).conn;
    assert d.log.kernel == c.log.kernel + data[..Connections.Accepted(c, data, w)];
  }

  lemma CallStreams(c: Conn, call: UserCall, inLoop: bool, w: WriteResult)
    requires WriteInterest(c)
    ensures var sends := c.state == Connected && inLoop && (call.Send? || call.SendBuffer?);
      Streams(c, DoUserCall(c, call, inLoop, w).conn,
        if sends && c.output == [] && w.Wrote? then (if w.n < |call.data| then call.data[..w.n] else call.data) else [], [])
  {
    if c.state == Connected && inLoop && (call.Send? || call.SendBuffer?) {
      SendStreams(Connections.Accept(c, call.data, true), call.data, true, w);
    } else {
      SameStreams(c, DoUserCall(c, call, inLoop, w).conn);
    }
  }

  lemma FunctorStreams(c: Conn, f: Functor, w: WriteResult)
    requires WriteInterest(c)
    ensures var sends := c.state != Disconnected && f.SendInLoop?;
      Streams(c, RunFunctor(c, f, w).conn,
        if sends && c.output == [] && w.Wrote? then (if w.n < |f.data| then f.data[..w.n] else f.data) else [], [])
  {
    if c.state != Disconnected && f.SendInLoop? {
      SendStreams(c, f.data, false, w);
    } else {
      SameStreams(c, RunFunctor(c, f, w).conn);
    }
  }

  lemma ReadStreams(c: Conn, r: ReadResult)
    ensures Streams(c, DoHandleRead(c, r), [], if r.Got? then r.bytes else [])
  {
    assert c.input + [] == c.input;
    SameStreams(c, c);
  }

  lemma WriteStreams(c: Conn, w: WriteResult)
    ensures Streams(c, DoHandleWrite(c, w).conn,
      if c.channel.writing && w.Wrote? then (if w.n < |c.output| then c.output[..w.n] else c.output) else [], [])
  {
    assert c.output[..|c.output|] == c.output && c.output[..0] == [];
    SameStreams(c, c);
  }

  lemma ActStreams(s: State, e: Event, id: nat)
    requires id < |s.conns| && WriteInterest(s.conns[id])
    ensures Streams(s.conns[id], Acted(s, e, id), TakenBy(s, e, id), ReadBy(s, e, id))
  {
    var c := s.conns[id];
    SameStreams(c, c);
    match e
    case Call(_, call, inLoop, w) => CallStreams(c, call, inLoop, w);
    case Handle(r, w) =>
      ReadStreams(c, r);
      WriteStreams(c, w);
    case RunTask(w) =>
      if Popping(s) {
        FunctorStreams(c, s.phase.batch[0].f, w);
      }
    case _ =>
  }

  /** Connection id has written and read just that; one that does not exist yet has done neither. */
  predicate HasStreams(s: State, id: nat, taken: string, read: string)
  {
    if id < |s.conns| then s.conns[id].log.kernel == taken && s.conns[id].input == read else taken == read == []
  }

  lemma StepStreams(v: Server, s: State, e: Event, id: nat, taken: string, read: string)
    requires Named(v, s) && ConnsOk(s.conns, s.stage) && HasStreams(s, id, taken, read)
    ensures HasStreams(Step(v, s, e), id, taken + TakenBy(s, e, id), read + ReadBy(s, e, id))
  {
    StepConns(v, s, e, id);
    if id < |s.conns| {
      ActStreams(s, e, id);
    } else if id < |Step(v, s, e).conns| {
      NewInput(v, s, e, id);
    }
  }

  /**
   * Both directions of any connection over any run, from what the kernel was
   * offered and answered: the output history is what the socket took, and the
   * input buffer holds what was read, all of it and in order.
   */
  lemma {:induction false} StreamsAreTheSockets(v: Server, es: seq<Event>, id: nat)
    ensures HasStreams(Exec(v, Init, es), id, TakenBySocket(v, es, id), Received(v, es, id))
  {
    if es != [] {
      var s := Exec(v, Init, es[..|es| - 1]);
      StreamsAreTheSockets(v, es[..|es| - 1], id);
      ReactorInvariant(v, es[..|es| - 1]);
      ExecNamed(v, es[..|es| - 1]);
      StepStreams(v, s, es[|es| - 1], id, TakenBySocket(v, es[..|es| - 1], id), Received(v, es[..|es| - 1], id));
    }
  }

  predicate Accepts(s: State, e: Event)
  {
    e.Accept? && |s.conns| + 1 < kMaxConnId
  }

  /** Only acceptance adds a connection, a new one or one just established. */
  lemma NewIsAccepted(v: Server, s: State, e: Event)
    requires Named(v, s)
    ensures if Accepts(s, e) then
      Step(v, s, e).conns == s.conns + [if v.sameLoop then DoConnectEstablished(NewConn(e.notify)) else NewConn(e.notify)]
      else |Step(v, s, e).conns| == |s.conns|
  {
    match e
    case Call(j, call, inLoop, w) =>
      if j < |s.conns| && s.conns[j].state != Connecting {
        AbsorbConns(v, s, j, DoUserCall(s.conns[j], call, inLoop, w));
      }
    case Handle(r, w) =>
      if s.phase.Walking? && s.phase.active != [] && s.phase.active[0].id < |s.conns| {
        var h, rest := s.phase.active[0], s.phase.active[1..];
        AbsorbConns(v, s.(phase := Walking([h.(readable := false)] + rest)), h.id, Outcome(DoHandleRead(s.conns[h.id], r), []));
        AbsorbConns(v, s.(phase := Walking([h.(writable := false)] + rest)), h.id, DoHandleWrite(s.conns[h.id], w));
      }
    case RunTask(w) =>
      if Popping(s) {
        AbsorbConns(v, Popped(s), s.phase.batch[0].id, RunFunctor(s.conns[s.phase.batch[0].id], s.phase.batch[0].f, w));
      }
    case _ =>
  }

  lemma NewInput(v: Server, s: State, e: Event, id: nat)
    requires Named(v, s) && |s.conns| <= id < |Step(v, s, e).conns|
    ensures Accepts(s, e) && id == |s.conns|
    ensures var c := Step(v, s, e).conns[id]; c.input == [] && c.notify == e.notify && ReadsAsWanted(c, true)
  {
    NewIsAccepted(v, s, e);
  }

  /** The ways a text takes that send() accepts. */
  datatype Way = Direct | Queued | ThrownAway

  function WayOf(call: UserCall, inLoop: bool): Way
    requires call.Send? || call.SendBuffer?
  {
    if inLoop then Direct else if call.Send? then Queued else ThrownAway
  }

  /** What send() on connection id accepts in a step. */
  function GivenBy(s: State, e: Event, id: nat, way: Way): string
  {
    if e.Call? && e.id == id && id < |s.conns| && s.conns[id].state == Connected
      && (e.call.Send? || e.call.SendBuffer?) && WayOf(e.call, e.inLoop) == way
    then e.call.data else []
  }

  /** What the users of connection id have given to send() in a run, in order. */
  function Given(v: Server, es: seq<Event>, id: nat, way: Way): string
  {
    if es == [] then [] else
    Given(v, es[..|es| - 1], id, way) + GivenBy(Exec(v, Init, es[..|es| - 1]), es[|es| - 1], id, way)
  }

  predicate Gains(c: Conn, d: Conn, direct: string, queued: string, thrown: string)
  {
    && d.log.acceptedIn == c.log.acceptedIn + direct && d.log.acceptedOff == c.log.acceptedOff + queued
    && d.log.vanished == c.log.vanished + thrown
  }

  lemma SameGains(c: Conn, d: Conn)
    requires d.log.acceptedIn == c.log.acceptedIn && d.log.acceptedOff == c.log.acceptedOff && d.log.vanished == c.log.vanished
    ensures Gains(c, d, [], [], [])
  {
  }

  lemma CallGains(c: Conn, call: UserCall, inLoop: bool, w: WriteResult)
    requires call.Send? || call.SendBuffer?
    ensures var way, data := WayOf(call, inLoop), if c.state == Connected then call.data else [];
      Gains(c, DoUserCall(c, call, inLoop, w).conn,
            if way == Direct then data else [], if way == Queued then data else [], if way == ThrownAway then data else [])
  {
    if c.state == Connected && inLoop {
      SendRecords(Connections.Accept(c, call.data, true), call.data, true, w);
    } else if c.state != Connected {
      SameGains(c, DoUserCall(c, call, inLoop, w).conn);
    }
  }

  lemma ControlGains(c: Conn, call: UserCall, inLoop: bool, w: WriteResult)
    requires !call.Send? && !call.SendBuffer?
    ensures Gains(c, DoUserCall(c, call, inLoop, w).conn, [], [], [])
  {
    SameGains(c, DoUserCall(c, call, inLoop, w).conn);
  }

  lemma FunctorGains(c: Conn, f: Functor, w: WriteResult)
    ensures Gains(c, RunFunctor(c, f, w).conn, [], [], [])
  {
    if f.SendInLoop? {
      SendRecords(c, f.data, false, w);
    }
    SameGains(c, RunFunctor(c, f, w).conn);
  }

  lemma ReadGains(c: Conn, r: ReadResult)
    ensures Gains(c, DoHandleRead(c, r), [], [], [])
  {
    SameGains(c, DoHandleRead(c, r));
  }

  lemma WriteGains(c: Conn, w: WriteResult)
    ensures Gains(c, DoHandleWrite(c, w).conn, [], [], [])
  {
    SameGains(c, DoHandleWrite(c, w).conn);
  }

  lemma ActGains(s: State, e: Event, id: nat)
    requires id < |s.conns|
    ensures Gains(s.conns[id], Acted(s, e, id), GivenBy(s, e, id, Direct), GivenBy(s, e, id, Queued), GivenBy(s, e, id, ThrownAway))
  {
    var c := s.conns[id];
    SameGains(c, c);
    match e
    case Call(_, call, inLoop, w) =>
      if call.Send? || call.SendBuffer? {
        CallGains(c, call, inLoop, w);
      } else {
        ControlGains(c, call, inLoop, w);
      }
    case Handle(r, w) =>
      ReadGains(c, r);
      WriteGains(c, w);
    case RunTask(w) =>
      if s.phase.Draining? && s.phase.batch != [] {
        FunctorGains(c, s.phase.batch[0].f, w);
      }
    case _ =>
  }

  /** The histories of a connection are what its users gave. */
  lemma {:induction false} GivenIsLogged(v: Server, es: seq<Event>, id: nat)
    ensures var s := Exec(v, Init, es);
      if id < |s.conns| then
        && s.conns[id].log.acceptedIn == Given(v, es, id, Direct) && s.conns[id].log.acceptedOff == Given(v, es, id, Queued)
        && s.conns[id].log.vanished == Given(v, es, id, ThrownAway)
      else Given(v, es, id, Direct) == Given(v, es, id, Queued) == Given(v, es, id, ThrownAway) == []
  {
    if es != [] {
      var before := Exec(v, Init, es[..|es| - 1]);
      GivenIsLogged(v, es[..|es| - 1], id);
      ExecNamed(v, es[..|es| - 1]);
      StepConns(v, before, es[|es| - 1], id);
      if id < |before.conns| {
        ActGains(before, es[|es| - 1], id);
      }
    }
  }

  /**
   * From send() to sendInLoop over any run: the texts given in the loop thread
   * are those handed over directly; the texts that send() of a string was given
   * in other threads are those handed over by functors, then those given up after
   * the close, then those still queued, each in order; and what send() of a Buffer
   * was given in other threads is all the rest.
   */
  lemma {:induction false} AcceptedTextConserved(v: Server, es: seq<Event>, id: nat)
    requires id < |Exec(v, Init, es).conns|
    ensures var s := Exec(v, Init, es); var l := s.conns[id].log;
      && Given(v, es, id, Direct) == TextOf(l.sent, true)
      && Given(v, es, id, Queued) == TextOf(l.sent, false) + l.discarded + (QueuedText(Batch(s), id) + QueuedText(s.queue, id))
      && (s.conns[id].state != Disconnected ==> l.discarded == [])
      && AcceptedBytes(l) == |Given(v, es, id, Direct)| + |Given(v, es, id, Queued)| + |Given(v, es, id, ThrownAway)|
  {
    ReactorInvariant(v, es);
    GivenIsLogged(v, es, id);
  }

  /** A write that fails because the peer is gone. */
  predicate Broken(w: WriteResult)
  {
    w.WriteFailed? && (w.errno == Pipe || w.errno == ConnReset)
  }

  /** At most one message reaches sendInLoop, and it is dropped exactly on a failed direct write. */
  predicate SendsNow(c: Conn, d: Conn, w: WriteResult)
  {
    || d.log.sent == c.log.sent
    || (|d.log.sent| == |c.log.sent| + 1 && d.log.sent[..|c.log.sent|] == c.log.sent
        && (d.log.sent[|c.log.sent|].dropped <==> c.output == [] && Broken(w)))
  }

  lemma SendSends(c: Conn, data: string, inLoop: bool, w: WriteResult)
    requires ConnInv(c)
    ensures SendsNow(c, DoSend(c, data, inLoop, w).conn, w) && SendsNow(c, DoSendBuffer(c, data, inLoop, w).conn, w)
  {
    if c.state == Connected && inLoop {
      AcceptInv(c, data, true);
      DroppedOnlyOnFault(Connections.Accept(c, data, true), data, true, w);
    }
  }

  lemma CallSends(c: Conn, call: UserCall, inLoop: bool, w: WriteResult)
    requires ConnInv(c)
    ensures SendsNow(c, DoUserCall(c, call, inLoop, w).conn, w)
  {
    if call.Send? || call.SendBuffer? {
      SendSends(c, call.data, inLoop, w);
    }
  }

  lemma FunctorSends(c: Conn, f: Functor, w: WriteResult)
    requires ConnInv(c)
    ensures SendsNow(c, RunFunctor(c, f, w).conn, w)
  {
    if f.SendInLoop? && c.state != Disconnected {
      DroppedOnlyOnFault(c, f.data, false, w);
    }
  }

  /** The outcome of the write in a step, if it writes. */
  function WriteIn(e: Event): WriteResult
  {
    match e case Call(_, _, _, w) => w case Handle(_, w) => w case RunTask(w) => w case _ => Wrote(0)
  }

  /**
   * In every run a message that reaches sendInLoop in a step is dropped if and only
   * if nothing was buffered and the direct write failed with EPIPE or ECONNRESET;
   * no message is dropped later.
   */
  lemma {:induction false} DropsExactlyOnFault(v: Server, es: seq<Event>, e: Event, id: nat)
    requires id < |Exec(v, Init, es).conns|
    ensures id < |Exec(v, Init, es + [e]).conns|
    ensures SendsNow(Exec(v, Init, es).conns[id], Exec(v, Init, es + [e]).conns[id], WriteIn(e))
  {
    ReactorInvariant(v, es);
    ExecNamed(v, es);
    ExecSnoc(v, Init, es, e);
    StepConns(v, Exec(v, Init, es), e, id);
    ActSends(Exec(v, Init, es), e, id);
  }

  lemma ActSends(s: State, e: Event, id: nat)
    requires id < |s.conns| && ConnInv(s.conns[id])
    ensures SendsNow(s.conns[id], Acted(s, e, id), WriteIn(e))
  {
    var c := s.conns[id];
    match e
    case Call(_, call, inLoop, w) => CallSends(c, call, inLoop, w);
    case Handle(r, w) => HandleSends(c, r, w);
    case RunTask(w) =>
      if s.phase.Draining? && s.phase.batch != [] {
        FunctorSends(c, s.phase.batch[0].f, w);
      }
    case _ =>
  }

  lemma HandleSends(c: Conn, r: ReadResult, w: WriteResult)
    ensures SendsNow(c, DoHandleRead(c, r), w) && SendsNow(c, DoHandleWrite(c, w).conn, w)
  {
  }

  // ---------------------------------------------------------------------------
  // What is asked for gets done

  /** How often a task is still to be run. */
  function Count(s: State, x: Task): nat
  {
    multiset(All(s))[x]
  }

  /** How often a step queues it, and whether the step runs it. */
  function QueuedBy(s: State, e: Event, x: Task): nat
  {
    match Acting(s, e)
    case Some((id, o)) => if id == x.id then multiset(o.queued)[x.f] else 0
    case None => 0
  }

  predicate Runs(s: State, e: Event, x: Task)
  {
    e.RunTask? && Popping(s) && s.phase.batch[0] == x
  }

  /** Not a task of the server's. */
  predicate OfUsers(x: Task)
  {
    x.f != ConnectEstablished && x.f != ConnectDestroyed
  }

  lemma {:induction false} TasksCount(id: nat, fs: seq<Functor>, x: Task)
    ensures multiset(Tasks(id, fs))[x] == if x.id == id then multiset(fs)[x.f] else 0
  {
    if fs == [] {
      assert Tasks(id, fs) == [];
    } else {
      var rest, last := fs[..|fs| - 1], fs[|fs| - 1];
      TasksCount(id, rest, x);
      assert Tasks(id, fs) == Tasks(id, rest) + [Task(id, last)] && fs == rest + [last];
    }
  }

  lemma AbsorbCount(v: Server, s: State, id: nat, o: Outcome, x: Task)
    requires id < |s.conns| == |s.stage| == |s.names| && OfUsers(x)
    ensures Count(Absorb(v, s, id, o), x) == Count(s, x) + if id == x.id then multiset(o.queued)[x.f] else 0
  {
    AbsorbAll(v, s, id, o);
    TasksCount(id, o.queued, x);
    TasksCount(id, [ConnectDestroyed], x);
  }

  lemma HandleCount(v: Server, s: State, r: ReadResult, w: WriteResult, x: Task)
    requires |s.conns| == |s.stage| == |s.names| && OfUsers(x)
    ensures Count(Step(v, s, Handle(r, w)), x) == Count(s, x) + QueuedBy(s, Handle(r, w), x)
  {
    if s.phase.Walking? && s.phase.active != [] && s.phase.active[0].id < |s.conns| {
      var h, rest := s.phase.active[0], s.phase.active[1..];
      if h.readable {
        AbsorbCount(v, s.(phase := Walking([h.(readable := false)] + rest)), h.id, Outcome(DoHandleRead(s.conns[h.id], r), []), x);
      } else if h.writable {
        AbsorbCount(v, s.(phase := Walking([h.(writable := false)] + rest)), h.id, DoHandleWrite(s.conns[h.id], w), x);
      }
    }
  }

  lemma PopCount(s: State, x: Task)
    requires Popping(s) && |s.conns| == |s.stage|
    ensures Count(Popped(s), x) + One(s.phase.batch[0] == x) == Count(s, x)
  {
    assert All(s) == [s.phase.batch[0]] + All(Popped(s));
  }

  lemma RunQueues(s: State, w: WriteResult, x: Task)
    requires Popping(s)
    ensures var t := s.phase.batch[0];
      && (Runs(s, RunTask(w), x) <==> t == x)
      && QueuedBy(s, RunTask(w), x) == if t.id == x.id then multiset(RunFunctor(s.conns[t.id], t.f, w).queued)[x.f] else 0
  {
  }

  lemma NothingRuns(v: Server, s: State, w: WriteResult, x: Task)
    requires !Popping(s)
    ensures Step(v, s, RunTask(w)) == s && QueuedBy(s, RunTask(w), x) == 0
  {
  }

  lemma TaskCount(v: Server, s: State, w: WriteResult, x: Task)
    requires |s.conns| == |s.stage| == |s.names| && OfUsers(x)
    ensures Count(Step(v, s, RunTask(w)), x) + One(Runs(s, RunTask(w), x)) == Count(s, x) + QueuedBy(s, RunTask(w), x)
  {
    if Popping(s) {
      var t := s.phase.batch[0];
      PopCount(s, x);
      AbsorbCount(v, Popped(s), t.id, RunFunctor(s.conns[t.id], t.f, w), x);
      RunTaskIs(v, s, w);
      RunQueues(s, w, x);
    } else {
      NothingRuns(v, s, w, x);
    }
  }

  lemma OthersAll(v: Server, s: State, e: Event)
    requires |s.conns| == |s.stage| == |s.names| && !e.Call? && !e.Handle? && !e.RunTask?
    ensures var t := Step(v, s, e);
      All(t) == All(s) || exists x :: !OfUsers(x) && All(t) == All(s) + [x]
  {
    var t := Step(v, s, e);
    match e
    case Accept(_) =>
      if Accepts(s, e) && !v.sameLoop {
        Assoc(Batch(s), s.queue, [Task(|s.conns|, ConnectEstablished)]);
        assert !OfUsers(Task(|s.conns|, ConnectEstablished)) && All(t) == All(s) + [Task(|s.conns|, ConnectEstablished)];
      }
    case Remove =>
      if s.removals != [] && s.removals[0] < |s.conns| {
        Assoc(Batch(s), s.queue, [Task(s.removals[0], ConnectDestroyed)]);
        assert !OfUsers(Task(s.removals[0], ConnectDestroyed)) && All(t) == All(s) + [Task(s.removals[0], ConnectDestroyed)];
      }
    case EndWalk => assert [] + s.queue == s.queue + [];
    case _ =>
  }

  lemma OthersCount(v: Server, s: State, e: Event, x: Task)
    requires |s.conns| == |s.stage| == |s.names| && OfUsers(x) && !e.Call? && !e.Handle? && !e.RunTask?
    ensures Count(Step(v, s, e), x) == Count(s, x)
  {
    OthersAll(v, s, e);
  }

  /** Tasks are neither lost nor run twice. */
  lemma StepCount(v: Server, s: State, e: Event, x: Task)
    requires |s.conns| == |s.stage| == |s.names| && OfUsers(x)
    ensures Count(Step(v, s, e), x) + One(Runs(s, e, x)) == Count(s, x) + QueuedBy(s, e, x)
  {
    match e
    case Call(id, call, inLoop, w) =>
      if id < |s.conns| && s.conns[id].state != Connecting {
        AbsorbCount(v, s, id, DoUserCall(s.conns[id], call, inLoop, w), x);
      }
    case Handle(r, w) => HandleCount(v, s, r, w, x);
    case RunTask(w) => TaskCount(v, s, w, x);
    case _ => OthersCount(v, s, e, x);
  }

  lemma StaysQueued(v: Server, s: State, e: Event, x: Task)
    requires |s.conns| == |s.stage| == |s.names| && OfUsers(x)
    ensures x in All(s) && !Runs(s, e, x) ==> x in All(Step(v, s, e))
    ensures QueuedBy(s, e, x) > 0 ==> x in All(Step(v, s, e))
  {
    StepCount(v, s, e, x);
    assert Count(s, x) > 0 <==> x in All(s);
    assert Count(Step(v, s, e), x) > 0 <==> x in All(Step(v, s, e));
  }

  /** The functor that is about to run meets the connection as the server's own functors expect it. */
  predicate HeadFits(s: State)
  {
    Popping(s) ==>
      var c := s.conns[s.phase.batch[0].id];
      && (s.phase.batch[0].f == ConnectEstablished <==> c.state == Connecting)
      && (s.phase.batch[0].f == ConnectDestroyed ==> c.state == Disconnected)
  }

  lemma InvHeadFits(s: State)
    requires Inv(s)
    ensures HeadFits(s)
  {
    if Popping(s) {
      PoppedTask(s);
      assert StageOk(s.conns[s.phase.batch[0].id], s.stage[s.phase.batch[0].id]);
    }
  }

  /** A call in a step, on a connection in one of the given states. */
  predicate Asks(s: State, e: Event, id: nat, call: UserCall, states: set<StateE>)
  {
    e.Call? && e.id == id && e.call == call && id < |s.conns| && s.conns[id].state in states
  }

  /** shutdown() was called in a run while the connection was connected. */
  predicate ShutdownAsked(v: Server, es: seq<Event>, id: nat)
  {
    es != [] &&
    (ShutdownAsked(v, es[..|es| - 1], id) || Asks(Exec(v, Init, es[..|es| - 1]), es[|es| - 1], id, Shutdown, {Connected}))
  }

  /** The write side is shut down, or will be when the buffer is empty, or the functor is queued; unless it closes first. */
  predicate ShutUnderWay(c: Conn, queued: bool)
  {
    Rank(c.state) >= 2 && (c.state == Disconnected || c.log.shutdowns != [] || c.output != [] || queued)
  }

  lemma CallShutUnderWay(c: Conn, call: UserCall, inLoop: bool, w: WriteResult, queued: bool)
    requires ConnInv(c) && (ShutUnderWay(c, queued) || (call == Shutdown && c.state == Connected))
    ensures var o := DoUserCall(c, call, inLoop, w); ShutUnderWay(o.conn, queued || ShutdownInLoop in o.queued)
  {
  }

  lemma WriteShutUnderWay(c: Conn, w: WriteResult, queued: bool)
    requires ConnInv(c) && ShutUnderWay(c, queued)
    ensures ShutUnderWay(DoHandleWrite(c, w).conn, queued)
  {
    if c.state == Disconnecting && c.channel.writing {
      DrainingShutsDown(c, w);
      HandleWriteInv(c, w);
    }
  }

  lemma ReadShutUnderWay(c: Conn, r: ReadResult, queued: bool)
    requires ShutUnderWay(c, queued)
    ensures ShutUnderWay(DoHandleRead(c, r), queued)
  {
  }

  lemma SendShutUnderWay(c: Conn, data: string, w: WriteResult, queued: bool)
    requires ShutUnderWay(c, queued)
    ensures ShutUnderWay(DoSendInLoop(c, data, false, w).conn, queued)
  {
  }

  lemma FunctorShutUnderWay(c: Conn, f: Functor, w: WriteResult, queued: bool, after: bool)
    requires ConnInv(c) && ShutUnderWay(c, queued) && f != ConnectEstablished && (queued ==> after || f == ShutdownInLoop)
    ensures ShutUnderWay(RunFunctor(c, f, w).conn, after)
  {
    if f.SendInLoop? {
      SendShutUnderWay(c, f.data, w, after);
    }
  }

  lemma HandleStaysUnderWay(c: Conn, r: ReadResult, w: WriteResult, queued: bool, after: bool)
    requires queued ==> after
    ensures ShutUnderWay(c, queued) ==> ShutUnderWay(c, after)
    ensures ShutUnderWay(DoHandleRead(c, r), queued) ==> ShutUnderWay(DoHandleRead(c, r), after)
    ensures ShutUnderWay(DoHandleWrite(c, w).conn, queued) ==> ShutUnderWay(DoHandleWrite(c, w).conn, after)
  {
  }

  /** queued and after: whether the functor is still to be run before and after the step. */
  lemma ActShutUnderWay(s: State, e: Event, id: nat, queued: bool, after: bool)
    requires id < |s.conns| && HeadFits(s) && ConnInv(s.conns[id])
    requires ShutUnderWay(s.conns[id], queued) || Asks(s, e, id, Shutdown, {Connected})
    requires queued && !Runs(s, e, Task(id, ShutdownInLoop)) ==> after
    requires QueuedBy(s, e, Task(id, ShutdownInLoop)) > 0 ==> after
    ensures ShutUnderWay(Acted(s, e, id), after)
  {
    var c := s.conns[id];
    match e
    case Call(j, call, inLoop, w) =>
      if j == id && c.state != Connecting {
        CallShutUnderWay(c, call, inLoop, w, queued);
      }
    case Handle(r, w) =>
      WriteShutUnderWay(c, w, queued);
      ReadShutUnderWay(c, r, queued);
      HandleStaysUnderWay(c, r, w, queued, after);
    case RunTask(w) =>
      if Popping(s) && s.phase.batch[0].id == id {
        FunctorShutUnderWay(c, s.phase.batch[0].f, w, queued, after);
      }
    case _ =>
  }

  /**
   * A shutdown is not forgotten: at every moment of every run after shutdown() was
   * called on a connected connection, in whatever thread, its write side has been
   * shut down, or bytes are still buffered, or shutdownInLoop is still queued, or
   * the connection has closed.
   */
  lemma {:induction false} ShutdownIsHeeded(v: Server, es: seq<Event>, id: nat)
    requires ShutdownAsked(v, es, id)
    ensures var s := Exec(v, Init, es); id < |s.conns| && ShutUnderWay(s.conns[id], Task(id, ShutdownInLoop) in All(s))
  {
    var before, e := es[..|es| - 1], es[|es| - 1];
    if ShutdownAsked(v, before, id) {
      ShutdownIsHeeded(v, before, id);
    }
    ReactorInvariant(v, before);
    ExecNamed(v, before);
    StepConns(v, Exec(v, Init, before), e, id);
    StaysQueued(v, Exec(v, Init, before), e, Task(id, ShutdownInLoop));
    InvHeadFits(Exec(v, Init, before));
    ActShutUnderWay(Exec(v, Init, before), e, id,
                 Task(id, ShutdownInLoop) in All(Exec(v, Init, before)), Task(id, ShutdownInLoop) in All(Exec(v, Init, es)));
  }

  /** forceClose() was called in a run while the connection was open. */
  predicate ForceCloseAsked(v: Server, es: seq<Event>, id: nat)
  {
    es != [] &&
    (ForceCloseAsked(v, es[..|es| - 1], id)
     || Asks(Exec(v, Init, es[..|es| - 1]), es[|es| - 1], id, ForceClose, {Connected, Disconnecting}))
  }

  predicate CloseUnderWay(c: Conn, queued: bool)
  {
    c.state == Disconnected || (c.state == Disconnecting && queued)
  }

  lemma CallCloseUnderWay(c: Conn, call: UserCall, inLoop: bool, w: WriteResult, queued: bool)
    requires CloseUnderWay(c, queued) || (call == ForceClose && c.state in {Connected, Disconnecting})
    ensures var o := DoUserCall(c, call, inLoop, w); CloseUnderWay(o.conn, queued || ForceCloseInLoop in o.queued)
  {
    UserCallLife(c, call, inLoop, w);
  }

  lemma FunctorCloseUnderWay(c: Conn, f: Functor, w: WriteResult, queued: bool, after: bool)
    requires CloseUnderWay(c, queued) && f != ConnectEstablished && (queued ==> after || f == ForceCloseInLoop)
    requires f == ConnectDestroyed ==> c.state == Disconnected
    ensures CloseUnderWay(RunFunctor(c, f, w).conn, after)
  {
    if f != ConnectDestroyed {
      FunctorLife(c, f, w);
    }
  }

  lemma HandleCloseUnderWay(c: Conn, r: ReadResult, w: WriteResult, queued: bool)
    requires CloseUnderWay(c, queued)
    ensures CloseUnderWay(DoHandleRead(c, r), queued) && CloseUnderWay(DoHandleWrite(c, w).conn, queued)
  {
    HandleLife(c, r, w);
  }

  /** queued and after: whether the functor is still to be run before and after the step. */
  lemma ActCloseUnderWay(s: State, e: Event, id: nat, queued: bool, after: bool)
    requires id < |s.conns| && HeadFits(s)
    requires CloseUnderWay(s.conns[id], queued) || Asks(s, e, id, ForceClose, {Connected, Disconnecting})
    requires queued && !Runs(s, e, Task(id, ForceCloseInLoop)) ==> after
    requires QueuedBy(s, e, Task(id, ForceCloseInLoop)) > 0 ==> after
    ensures CloseUnderWay(Acted(s, e, id), after)
  {
    var c := s.conns[id];
    match e
    case Call(j, call, inLoop, w) =>
      if j == id && c.state != Connecting {
        CallCloseUnderWay(c, call, inLoop, w, queued);
        assert Acting(s, e) == Some((id, DoUserCall(c, call, inLoop, w)));
      }
    case Handle(r, w) => HandleCloseUnderWay(c, r, w, queued);
    case RunTask(w) =>
      if Popping(s) && s.phase.batch[0].id == id {
        FunctorCloseUnderWay(c, s.phase.batch[0].f, w, queued, after);
        assert Acting(s, e) == Some((id, RunFunctor(c, s.phase.batch[0].f, w)));
      }
    case _ =>
  }

  /** Nor is a forceClose: at every later moment of every run the connection has closed, or the functor is still queued. */
  lemma {:induction false} ForceCloseIsHeeded(v: Server, es: seq<Event>, id: nat)
    requires ForceCloseAsked(v, es, id)
    ensures var s := Exec(v, Init, es); id < |s.conns| && CloseUnderWay(s.conns[id], Task(id, ForceCloseInLoop) in All(s))
  {
    var before, e := es[..|es| - 1], es[|es| - 1];
    if ForceCloseAsked(v, before, id) {
      ForceCloseIsHeeded(v, before, id);
    }
    ReactorInvariant(v, before);
    ExecNamed(v, before);
    StepConns(v, Exec(v, Init, before), e, id);
    StaysQueued(v, Exec(v, Init, before), e, Task(id, ForceCloseInLoop));
    InvHeadFits(Exec(v, Init, before));
    ActCloseUnderWay(Exec(v, Init, before), e, id,
                 Task(id, ForceCloseInLoop) in All(Exec(v, Init, before)), Task(id, ForceCloseInLoop) in All(Exec(v, Init, es)));
  }

  /** The calls that end the accepting of text. */
  predicate Ends(call: UserCall)
  {
    call.Shutdown? || call.ForceClose? || call.ForceCloseWithDelay?
  }

  lemma EndsAccepting(v: Server, s: State, id: nat, call: UserCall, inLoop: bool, w: WriteResult)
    requires Named(v, s) && id < |s.conns| && s.conns[id].state != Connecting && Ends(call)
    ensures var t := Step(v, s, Call(id, call, inLoop, w)); id < |t.conns| && Rank(t.conns[id].state) >= 2
  {
    StepConns(v, s, Call(id, call, inLoop, w), id);
  }

  lemma GivenSnoc(v: Server, es: seq<Event>, e: Event, id: nat, way: Way)
    ensures Given(v, es + [e], id, way) == Given(v, es, id, way) + GivenBy(Exec(v, Init, es), e, id, way)
  {
    assert (es + [e])[..|es|] == es;
  }

  /** Connection id is past the state in which send() accepts. */
  predicate Ended(v: Server, es: seq<Event>, id: nat)
  {
    id < |Exec(v, Init, es).conns| && Rank(Exec(v, Init, es).conns[id].state) >= 2
  }

  lemma NothingGivenNow(s: State, e: Event, id: nat, way: Way)
    requires id < |s.conns| && Rank(s.conns[id].state) >= 2
    ensures GivenBy(s, e, id, way) == []
  {
  }

  lemma EndedStays(v: Server, es: seq<Event>, e: Event, id: nat, way: Way)
    requires Ended(v, es, id)
    ensures Ended(v, es + [e], id) && Given(v, es + [e], id, way) == Given(v, es, id, way)
  {
    NextForward(v, es, e);
    NothingGivenNow(Exec(v, Init, es), e, id, way);
    GivenSnoc(v, es, e, id, way);
    assert Given(v, es, id, way) + [] == Given(v, es, id, way);
  }

  lemma NothingMoreGiven(v: Server, es: seq<Event>, fs: seq<Event>, id: nat, way: Way)
    requires Ended(v, es, id)
    ensures Given(v, es + fs, id, way) == Given(v, es, id, way)
  {
    var holds, value := (r: seq<Event>) => Ended(v, r, id), (r: seq<Event>) => Given(v, r, id, way);
    forall r, e | holds(r) ensures holds(r + [e]) && value(r + [e]) == value(r) {
      EndedStays(v, r, e, id, way);
    }
    KeptBy(holds, value, es, fs);
    assert value(es + fs) == Given(v, es + fs, id, way);
  }

  /**
   * After a shutdown, a forceClose or a forceCloseWithDelay, from whatever thread,
   * send() accepts nothing more, in any continuation of any run.
   */
  lemma {:induction false} NothingGivenAfterEnd(v: Server, es: seq<Event>, call: UserCall, inLoop: bool, w: WriteResult,
                                                fs: seq<Event>, id: nat, way: Way)
    ensures id < |Exec(v, Init, es).conns| && Exec(v, Init, es).conns[id].state != Connecting && Ends(call) ==>
      Given(v, es + [Call(id, call, inLoop, w)] + fs, id, way) == Given(v, es, id, way)
  {
    if id < |Exec(v, Init, es).conns| && Exec(v, Init, es).conns[id].state != Connecting && Ends(call) {
      var e := Call(id, call, inLoop, w);
      ExecNamed(v, es);
      EndsAccepting(v, Exec(v, Init, es), id, call, inLoop, w);
      ExecSnoc(v, Init, es, e);
      NothingMoreGiven(v, es + [e], fs, id, way);
      GivenSnoc(v, es, e, id, way);
      assert Given(v, es, id, way) + [] == Given(v, es, id, way);
    }
  }

  /** What the users want to read: the last read control that acted, and everything before the first. */
  function WantedAfter(s: State, e: Event, id: nat, wanted: bool): bool
  {
    match e
    case Call(j, call, inLoop, _) =>
      if j == id < |s.conns| && s.conns[id].state != Connecting && inLoop && (call.StartRead? || call.StopRead?) then call.StartRead?
      else wanted
    case RunTask(_) =>
      if Runs(s, e, Task(id, StartReadInLoop)) then true else if Runs(s, e, Task(id, StopReadInLoop)) then false else wanted
    case _ => wanted
  }

  function ReadingWanted(v: Server, es: seq<Event>, id: nat): bool
  {
    es == [] || WantedAfter(Exec(v, Init, es[..|es| - 1]), es[|es| - 1], id, ReadingWanted(v, es[..|es| - 1], id))
  }

  /** While it is open the channel waits for input exactly when that is wanted. */
  predicate ReadsAsWanted(c: Conn, wanted: bool)
  {
    match c.state
    case Connecting => c.reading && wanted
    case Disconnected => true
    case _ => c.channel.reading == c.reading == wanted
  }

  lemma SendKeepsReading(c: Conn, data: string, inLoop: bool, w: WriteResult)
    ensures var d := DoSend(c, data, inLoop, w).conn; d.state == c.state && d.reading == c.reading && d.channel.reading == c.channel.reading
    ensures DoSendBuffer(c, data, inLoop, w).conn.state == c.state && DoSendBuffer(c, data, inLoop, w).conn.reading == c.reading
    ensures DoSendBuffer(c, data, inLoop, w).conn.channel.reading == c.channel.reading
  {
  }

  lemma CallReads(c: Conn, call: UserCall, inLoop: bool, w: WriteResult, wanted: bool)
    requires ReadsAsWanted(c, wanted) && c.state != Connecting
    ensures ReadsAsWanted(DoUserCall(c, call, inLoop, w).conn,
                          if inLoop && (call.StartRead? || call.StopRead?) then call.StartRead? else wanted)
  {
    if call.Send? || call.SendBuffer? {
      SendKeepsReading(c, call.data, inLoop, w);
    }
  }

  lemma FunctorReads(c: Conn, f: Functor, w: WriteResult, wanted: bool)
    requires ReadsAsWanted(c, wanted) && (f == ConnectEstablished <==> c.state == Connecting)
    ensures ReadsAsWanted(RunFunctor(c, f, w).conn, if f.StartReadInLoop? then true else if f.StopReadInLoop? then false else wanted)
  {
  }

  lemma HandleReads(c: Conn, r: ReadResult, w: WriteResult, wanted: bool)
    requires ReadsAsWanted(c, wanted)
    ensures ReadsAsWanted(DoHandleRead(c, r), wanted) && ReadsAsWanted(DoHandleWrite(c, w).conn, wanted)
  {
  }

  lemma ActReads(s: State, e: Event, id: nat, wanted: bool)
    requires HeadFits(s) && id < |s.conns| && ReadsAsWanted(s.conns[id], wanted)
    ensures ReadsAsWanted(Acted(s, e, id), WantedAfter(s, e, id, wanted))
  {
    var c := s.conns[id];
    match e
    case Call(_, call, inLoop, w) => if c.state != Connecting { CallReads(c, call, inLoop, w, wanted); }
    case Handle(r, w) => HandleReads(c, r, w, wanted);
    case RunTask(w) =>
      if Popping(s) && s.phase.batch[0].id == id {
        FunctorReads(c, s.phase.batch[0].f, w, wanted);
      }
    case _ =>
  }

  lemma NotThereYet(s: State, e: Event, id: nat, wanted: bool)
    requires Inv(s) && |s.conns| <= id && wanted
    ensures WantedAfter(s, e, id, wanted)
  {
  }

  /**
   * While a connection is open, in every run, its channel waits for input exactly
   * when the last startRead or stopRead that acted says so, and from the beginning
   * until the first one does.
   */
  lemma {:induction false} ReadingFollowsControls(v: Server, es: seq<Event>, id: nat)
    ensures var s := Exec(v, Init, es);
      if id < |s.conns| then ReadsAsWanted(s.conns[id], ReadingWanted(v, es, id)) else ReadingWanted(v, es, id)
  {
    if es != [] {
      var before, e := es[..|es| - 1], es[|es| - 1];
      var s := Exec(v, Init, before);
      ReadingFollowsControls(v, before, id);
      ReactorInvariant(v, before);
      ExecNamed(v, before);
      StepConns(v, s, e, id);
      if id < |s.conns| {
        InvHeadFits(s);
        ActReads(s, e, id, ReadingWanted(v, before, id));
      } else {
        NotThereYet(s, e, id, true);
        if id < |Step(v, s, e).conns| {
          NewInput(v, s, e, id);
        }
      }
    }
  }

  /** The socket takes all that a step offers to it. */
  predicate CompletesBy(s: State, e: Event, id: nat)
  {
    OfferedBy(s, e, id).Some? && WriteIn(e).Wrote? && WriteIn(e).n >= |OfferedBy(s, e, id).value|
  }

  /** How often it did in a run. */
  function Completions(v: Server, es: seq<Event>, id: nat): nat
  {
    if es == [] then 0 else
    Completions(v, es[..|es| - 1], id) + One(CompletesBy(Exec(v, Init, es[..|es| - 1]), es[|es| - 1], id))
  }

  /** The server gave connection id a write-complete callback when it accepted it. */
  predicate Notified(v: Server, es: seq<Event>, id: nat)
  {
    es != [] &&
    if Accepts(Exec(v, Init, es[..|es| - 1]), es[|es| - 1]) && id == |Exec(v, Init, es[..|es| - 1]).conns| then es[|es| - 1].notify
    else Notified(v, es[..|es| - 1], id)
  }

  lemma SendCompletes(c: Conn, data: string, direct: bool, w: WriteResult)
    requires WriteInterest(c) && c.state != Disconnected
    ensures multiset(DoSendInLoop(c, data, direct, w).queued)[WriteComplete] ==
      One(c.notify && c.output == [] && w.Wrote? && w.n >= |data|)
  {
  }

  lemma CallCompletes(c: Conn, call: UserCall, inLoop: bool, w: WriteResult)
    requires WriteInterest(c)
    ensures multiset(DoUserCall(c, call, inLoop, w).queued)[WriteComplete] ==
      One(c.notify && c.state == Connected && inLoop && (call.Send? || call.SendBuffer?)
          && c.output == [] && w.Wrote? && w.n >= |call.data|)
  {
    if c.state == Connected && inLoop && (call.Send? || call.SendBuffer?) {
      SendCompletes(Connections.Accept(c, call.data, true), call.data, true, w);
    }
  }

  lemma FunctorCompletes(c: Conn, f: Functor, w: WriteResult)
    requires WriteInterest(c)
    ensures multiset(RunFunctor(c, f, w).queued)[WriteComplete] ==
      One(c.notify && c.state != Disconnected && f.SendInLoop? && c.output == [] && w.Wrote? && w.n >= |f.data|)
  {
    if f.SendInLoop? && c.state != Disconnected {
      SendCompletes(c, f.data, false, w);
    }
  }

  lemma WriteCompletes(c: Conn, w: WriteResult)
    requires WriteInterest(c)
    ensures multiset(DoHandleWrite(c, w).queued)[WriteComplete] ==
      One(c.notify && c.channel.writing && w.Wrote? && w.n >= |c.output|)
  {
  }

  lemma CallQueuesCompletion(s: State, j: nat, call: UserCall, inLoop: bool, w: WriteResult, id: nat)
    requires id < |s.conns| && WriteInterest(s.conns[id])
    ensures var e := Call(j, call, inLoop, w);
      QueuedBy(s, e, Task(id, WriteComplete)) == One(s.conns[id].notify && CompletesBy(s, e, id))
  {
    if j == id {
      CallCompletes(s.conns[id], call, inLoop, w);
    }
  }

  lemma HandleQueuesCompletion(s: State, r: ReadResult, w: WriteResult, id: nat)
    requires id < |s.conns| && WriteInterest(s.conns[id])
    ensures var e := Handle(r, w);
      QueuedBy(s, e, Task(id, WriteComplete)) == One(s.conns[id].notify && CompletesBy(s, e, id))
  {
    WriteCompletes(s.conns[id], w);
  }

  lemma TaskQueuesCompletion(s: State, w: WriteResult, id: nat)
    requires id < |s.conns| && WriteInterest(s.conns[id])
    ensures var e := RunTask(w);
      QueuedBy(s, e, Task(id, WriteComplete)) == One(s.conns[id].notify && CompletesBy(s, e, id))
  {
    if Popping(s) && s.phase.batch[0].id == id {
      FunctorCompletes(s.conns[id], s.phase.batch[0].f, w);
    }
  }

  lemma ActCompletes(s: State, e: Event, id: nat)
    requires id < |s.conns| && WriteInterest(s.conns[id])
    ensures QueuedBy(s, e, Task(id, WriteComplete)) == One(s.conns[id].notify && CompletesBy(s, e, id))
  {
    match e
    case Call(j, call, inLoop, w) => CallQueuesCompletion(s, j, call, inLoop, w, id);
    case Handle(r, w) => HandleQueuesCompletion(s, r, w, id);
    case RunTask(w) => TaskQueuesCompletion(s, w, id);
    case _ =>
  }

  /** With so many completions, and so many of them called. */
  predicate CompletionsOk(s: State, id: nat, notified: bool, done: nat, called: nat)
  {
    && Count(s, Task(id, WriteComplete)) + called == (if notified then done else 0)
    && (if id < |s.conns| then s.conns[id].notify == notified else done == 0)
  }

  lemma NotYetCompleting(s: State, e: Event, id: nat)
    requires |s.conns| <= id
    ensures QueuedBy(s, e, Task(id, WriteComplete)) == 0 && !Runs(s, e, Task(id, WriteComplete)) && !CompletesBy(s, e, id)
  {
  }

  lemma StepCompletions(v: Server, s: State, e: Event, id: nat, notified: bool, done: nat, called: nat)
    requires Named(v, s) && ConnsOk(s.conns, s.stage) && CompletionsOk(s, id, notified, done, called)
    ensures CompletionsOk(Step(v, s, e), id, if Accepts(s, e) && id == |s.conns| then e.notify else notified,
                          done + One(CompletesBy(s, e, id)), called + One(Runs(s, e, Task(id, WriteComplete))))
  {
    StepConns(v, s, e, id);
    StepCount(v, s, e, Task(id, WriteComplete));
    if id < |s.conns| {
      ActCompletes(s, e, id);
      ActStreams(s, e, id);
    } else {
      NotYetCompleting(s, e, id);
      NewIsAccepted(v, s, e);
      if id < |Step(v, s, e).conns| {
        NewInput(v, s, e, id);
      }
    }
  }

  /**
   * In every run the write-complete callback of a connection that has one has been
   * called or is queued once for every time the socket took all that it was offered,
   * and never otherwise.
   */
  lemma {:induction false} CompletionsAreCalled(v: Server, es: seq<Event>, id: nat)
    ensures CompletionsOk(Exec(v, Init, es), id, Notified(v, es, id), Completions(v, es, id), TimesRun(v, es, Task(id, WriteComplete)))
  {
    if es != [] {
      var before, e := es[..|es| - 1], es[|es| - 1];
      CompletionsAreCalled(v, before, id);
      ReactorInvariant(v, before);
      ExecNamed(v, before);
      StepCompletions(v, Exec(v, Init, before), e, id, Notified(v, before, id),
                      Completions(v, before, id), TimesRun(v, before, Task(id, WriteComplete)));
    }
  }

  /** The functor that a call of a public function queues, if it queues one. */
  function QueuedControl(c: Conn, call: UserCall, inLoop: bool): Option<Functor>
  {
    match call
    case Shutdown => if c.state == Connected && !inLoop then Some(ShutdownInLoop) else None
    case ForceClose => if c.state in {Connected, Disconnecting} then Some(ForceCloseInLoop) else None
    case StartRead => if inLoop then None else Some(StartReadInLoop)
    case StopRead => if inLoop then None else Some(StopReadInLoop)
    case _ => None
  }

  predicate IsControl(f: Functor)
  {
    f.ShutdownInLoop? || f.ForceCloseInLoop? || f.StartReadInLoop? || f.StopReadInLoop?
  }

  predicate AsksFor(s: State, e: Event, x: Task)
  {
    e.Call? && e.id == x.id < |s.conns| && s.conns[x.id].state != Connecting
    && QueuedControl(s.conns[x.id], e.call, e.inLoop) == Some(x.f)
  }

  /** How often calls asked for a functor in a run, and how often it was run. */
  function TimesAsked(v: Server, es: seq<Event>, x: Task): nat
  {
    if es == [] then 0 else TimesAsked(v, es[..|es| - 1], x) + One(AsksFor(Exec(v, Init, es[..|es| - 1]), es[|es| - 1], x))
  }

  function TimesRun(v: Server, es: seq<Event>, x: Task): nat
  {
    if es == [] then 0 else TimesRun(v, es[..|es| - 1], x) + One(Runs(Exec(v, Init, es[..|es| - 1]), es[|es| - 1], x))
  }

  lemma CallQueuesControl(c: Conn, call: UserCall, inLoop: bool, w: WriteResult, f: Functor)
    requires IsControl(f)
    ensures multiset(DoUserCall(c, call, inLoop, w).queued)[f] == One(QueuedControl(c, call, inLoop) == Some(f))
  {
    if call.Send? || call.SendBuffer? {
      SendForward(c, call.data, inLoop, w);
    }
  }

  lemma ActQueuesControl(s: State, e: Event, x: Task)
    requires IsControl(x.f)
    ensures QueuedBy(s, e, x) == One(AsksFor(s, e, x))
  {
    match e
    case Call(j, call, inLoop, w) =>
      if j == x.id < |s.conns| {
        CallQueuesControl(s.conns[j], call, inLoop, w, x.f);
      }
    case Handle(r, w) =>
      if x.id < |s.conns| {
        HandleLife(s.conns[x.id], r, w);
      }
    case RunTask(w) =>
      if Popping(s) {
        FunctorQueues(s.conns[s.phase.batch[0].id], s.phase.batch[0].f, w);
      }
    case _ =>
  }

  /**
   * In every run each shutdown, forceClose, startRead or stopRead that goes through
   * the queue has been run once, or is queued once; and nothing else is.
   */
  lemma {:induction false} ControlsRunOnce(v: Server, es: seq<Event>, x: Task)
    requires IsControl(x.f)
    ensures Count(Exec(v, Init, es), x) + TimesRun(v, es, x) == TimesAsked(v, es, x)
  {
    if es != [] {
      var before, e := es[..|es| - 1], es[|es| - 1];
      ControlsRunOnce(v, before, x);
      ExecNamed(v, before);
      StepCount(v, Exec(v, Init, before), e, x);
      ActQueuesControl(Exec(v, Init, before), e, x);
    }
  }

  // ---------------------------------------------------------------------------
  // The walk of the active list

  /** The callbacks that an active list stands for: of each channel read before write. */
  function Owed(active: seq<Ready>): seq<(nat, bool)>
  {
    if active == [] then [] else
    (if active[0].readable then [(active[0].id, true)] else [])
    + (if active[0].writable then [(active[0].id, false)] else []) + Owed(active[1..])
  }

  /** The callback that a step calls. */
  function HandledBy(s: State, e: Event): seq<(nat, bool)>
  {
    if e.Handle? && s.phase.Walking? && s.phase.active != [] && s.phase.active[0].id < |s.conns| then
      var h := s.phase.active[0];
      if h.readable then [(h.id, true)] else if h.writable then [(h.id, false)] else []
    else []
  }

  predicate Polls(s: State, e: Event)
  {
    e.Poll? && s.phase.Polling? && Deliverable(s, e.ready)
  }

  /** What the last poll of a run reported. */
  function LastReported(v: Server, es: seq<Event>): seq<Ready>
  {
    if es == [] then [] else if Polls(Exec(v, Init, es[..|es| - 1]), es[|es| - 1]) then es[|es| - 1].ready
    else LastReported(v, es[..|es| - 1])
  }

  /** The callbacks called since. */
  function HandledSince(v: Server, es: seq<Event>): seq<(nat, bool)>
  {
    if es == [] || Polls(Exec(v, Init, es[..|es| - 1]), es[|es| - 1]) then []
    else HandledSince(v, es[..|es| - 1]) + HandledBy(Exec(v, Init, es[..|es| - 1]), es[|es| - 1])
  }

  function Active(s: State): seq<Ready>
  {
    if s.phase.Walking? then s.phase.active else []
  }

  lemma OwedHead(h: Ready, rest: seq<Ready>)
    ensures Owed([h] + rest) == (if h.readable then [(h.id, true)] else []) + (if h.writable then [(h.id, false)] else []) + Owed(rest)
  {
    assert ([h] + rest)[1..] == rest;
  }

  /** Calling the first callback that an active list stands for. */
  lemma HeadOwed(h: Ready, rest: seq<Ready>)
    ensures h.readable ==> Owed([h] + rest) == [(h.id, true)] + Owed([h.(readable := false)] + rest)
    ensures !h.readable && h.writable ==> Owed([h] + rest) == [(h.id, false)] + Owed([h.(writable := false)] + rest)
    ensures !h.readable && !h.writable ==> Owed([h] + rest) == Owed(rest)
  {
    OwedHead(h, rest);
    OwedHead(h.(readable := false), rest);
    OwedHead(h.(writable := false), rest);
  }

  lemma HandleActive(v: Server, s: State, r: ReadResult, w: WriteResult)
    requires |s.conns| == |s.stage| == |s.names|
    requires s.phase.Walking? && s.phase.active != [] && s.phase.active[0].id < |s.conns|
    ensures var h, rest := s.phase.active[0], s.phase.active[1..];
      Active(Step(v, s, Handle(r, w))) == if h.readable then [h.(readable := false)] + rest
                                          else if h.writable then [h.(writable := false)] + rest else rest
  {
  }

  lemma QuietActive(v: Server, s: State, e: Event)
    requires |s.conns| == |s.stage| == |s.names| && !Polls(s, e)
    requires e.Handle? ==> !(s.phase.Walking? && s.phase.active != [] && s.phase.active[0].id < |s.conns|)
    ensures Active(Step(v, s, e)) == Active(s)
  {
  }

  /** HandledBy, as a function of the active list. */
  lemma ActiveOwed(active: seq<Ready>, next: seq<Ready>, handled: seq<(nat, bool)>)
    requires active != []
    requires var h, rest := active[0], active[1..];
      if h.readable then next == [h.(readable := false)] + rest && handled == [(h.id, true)]
      else if h.writable then next == [h.(writable := false)] + rest && handled == [(h.id, false)]
      else next == rest && handled == []
    ensures Owed(active) == handled + Owed(next)
  {
    assert active == [active[0]] + active[1..];
    HeadOwed(active[0], active[1..]);
  }

  lemma StepOwed(v: Server, s: State, e: Event)
    requires |s.conns| == |s.stage| == |s.names| && !Polls(s, e)
    ensures Owed(Active(s)) == HandledBy(s, e) + Owed(Active(Step(v, s, e)))
  {
    if e.Handle? && s.phase.Walking? && s.phase.active != [] && s.phase.active[0].id < |s.conns| {
      HandleActive(v, s, e.r, e.w);
      ActiveOwed(s.phase.active, Active(Step(v, s, e)), HandledBy(s, e));
    } else {
      QuietActive(v, s, e);
    }
  }

  lemma WalksOn(handled: seq<(nat, bool)>, now: seq<(nat, bool)>, active: seq<Ready>, next: seq<Ready>, reported: seq<Ready>)
    requires handled + Owed(active) == Owed(reported) && Owed(active) == now + Owed(next)
    ensures handled + now + Owed(next) == Owed(reported)
  {
    Assoc(handled, now, Owed(next));
  }

  lemma PollActive(v: Server, s: State, e: Event)
    requires |s.conns| == |s.stage| == |s.names| && Polls(s, e)
    ensures Active(Step(v, s, e)) == e.ready
  {
  }

  /**
   * In every run the callbacks called since the last poll, and those that the rest
   * of the active list stands for, are those of the channels it reported, in order:
   * each once, read before write. After the walk all of them have been called.
   */
  lemma {:induction false} WalkCallsWhatWasReported(v: Server, es: seq<Event>)
    ensures HandledSince(v, es) + Owed(Active(Exec(v, Init, es))) == Owed(LastReported(v, es))
  {
    if es != [] {
      var before, e := es[..|es| - 1], es[|es| - 1];
      var s := Exec(v, Init, before);
      WalkCallsWhatWasReported(v, before);
      ExecNamed(v, before);
      if Polls(s, e) {
        PollActive(v, s, e);
        assert [] + Owed(e.ready) == Owed(e.ready);
      } else {
        StepOwed(v, s, e);
        WalksOn(HandledSince(v, before), HandledBy(s, e), Active(s), Active(Step(v, s, e)), LastReported(v, before));
      }
    }
  }

  /** Closer to the next poll: draining comes after walking, and each gets shorter. */
  predicate Closer(p: Phase, q: Phase)
  {
    match p
    case Walking(active) => q.Draining? || (q.Walking? && |Owed(q.active)| + |q.active| < |Owed(active)| + |active|)
    case Draining(batch) => q.Polling? || (q.Draining? && |q.batch| < |batch|)
    case Polling => false
  }

  /** The step that the loop thread takes next, when it is not waiting in poll. */
  predicate NextOfLoop(s: State, e: Event)
  {
    match s.phase
    case Polling => false
    case Walking(active) => if active == [] then e.EndWalk? else e.Handle?
    case Draining(batch) => if batch == [] then e.EndDrain? else e.RunTask?
  }

  lemma HandleCloser(v: Server, s: State, r: ReadResult, w: WriteResult)
    requires |s.conns| == |s.stage| == |s.names|
    requires s.phase.Walking? && s.phase.active != [] && s.phase.active[0].id < |s.conns|
    ensures Step(v, s, Handle(r, w)).phase.Walking? && Closer(s.phase, Step(v, s, Handle(r, w)).phase)
  {
    assert s.phase.active == [s.phase.active[0]] + s.phase.active[1..];
    HandleActive(v, s, r, w);
    HeadOwed(s.phase.active[0], s.phase.active[1..]);
  }

  lemma RunCloser(v: Server, s: State, w: WriteResult)
    requires |s.conns| == |s.stage| == |s.names| && Popping(s)
    ensures Closer(s.phase, Step(v, s, RunTask(w)).phase)
  {
    RunTaskIs(v, s, w);
  }

  lemma NextCloser(v: Server, s: State, e: Event)
    requires Inv(s) && |s.names| == |s.conns| && NextOfLoop(s, e)
    ensures Closer(s.phase, Step(v, s, e).phase)
  {
    match e
    case Handle(r, w) => HandleCloser(v, s, r, w);
    case RunTask(w) =>
      PopTasks(s.stage, s.phase.batch, s.queue);
      RunCloser(v, s, w);
    case _ =>
  }

  lemma OthersLeavePhase(v: Server, s: State, e: Event)
    requires |s.conns| == |s.stage| == |s.names| && (e.Accept? || e.Call? || e.Remove?)
    ensures Step(v, s, e).phase == s.phase
  {
  }

  /**
   * In every run the loop gets on: between two polls each step of its own brings it
   * closer to the next one, whatever the callbacks and other threads did meanwhile,
   * and what they do keeps it where it is. A poll takes up what is reported, and the
   * end of the walk all that is queued.
   */
  lemma {:induction false} LoopGetsOn(v: Server, es: seq<Event>, e: Event)
    ensures var s := Exec(v, Init, es); var t := Exec(v, Init, es + [e]);
      && (NextOfLoop(s, e) ==> Closer(s.phase, t.phase))
      && (e.Accept? || e.Call? || e.Remove? ==> t.phase == s.phase)
      && (Polls(s, e) ==> t.phase == Walking(e.ready))
      && (e.EndWalk? && s.phase == Walking([]) ==> t.phase == Draining(s.queue) && t.queue == [])
  {
    var s := Exec(v, Init, es);
    ReactorInvariant(v, es);
    ExecNamed(v, es);
    ExecSnoc(v, Init, es, e);
    if NextOfLoop(s, e) {
      NextCloser(v, s, e);
    }
    if e.Accept? || e.Call? || e.Remove? {
      OthersLeavePhase(v, s, e);
    }
  }

  lemma RemovalsValid(s: State)
    requires RemovalsOk(s.stage, s.removals) && s.removals != []
    ensures s.removals[0] < |s.stage|
  {
    assert multiset(s.removals)[s.removals[0]] > 0;
    assert StageAt(s.stage, s.removals[0]) != Gone || s.removals[0] < |s.stage|;
  }

  /**
   * In every run the server's loop gets rid of a closed connection: the first of the
   * removals takes it out of the map and hands its destruction to the io loop.
   */
  lemma {:induction false} RemovalTakesEffect(v: Server, es: seq<Event>)
    ensures var s := Exec(v, Init, es); var t := Exec(v, Init, es + [Event.Remove]);
      s.removals != [] ==>
        && s.removals[0] < |s.names| && t.removals == s.removals[1..]
        && s.names[s.removals[0]] !in t.registry && t.queue == s.queue + [Task(s.removals[0], ConnectDestroyed)]
  {
    var s := Exec(v, Init, es);
    ReactorInvariant(v, es);
    ExecNamed(v, es);
    ExecSnoc(v, Init, es, Event.Remove);
    if s.removals != [] {
      RemovalsValid(s);
    }
  }

  // ---------------------------------------------------------------------------
  // Shutdown

  /** Every byte accepted by then is in the kernel, or was dropped on a fault. */
  predicate Complete(sh: Shut)
  {
    sh.accepted == |sh.kernel| + DroppedBytes(sh.sent)
  }

  /**
   * When a step of any run shuts the write side of an open connection down, every
   * byte that send() has accepted is in the kernel or was dropped on a fault if
   * and only if no text is still queued at that moment, and send() of a Buffer
   * has thrown none away.
   */
  lemma {:induction false} ShutdownCompleteIff(v: Server, es: seq<Event>, e: Event, id: nat)
    requires id < |Exec(v, Init, es).conns|
    ensures var s, t := Exec(v, Init, es), Exec(v, Init, es + [e]);
      && id < |t.conns|
      && var shuts := t.conns[id].log.shutdowns;
      |shuts| > |s.conns[id].log.shutdowns| && shuts[|shuts| - 1].state != Disconnected ==>
        (Complete(shuts[|shuts| - 1]) <==>
          QueuedText(Batch(t), id) + QueuedText(t.queue, id) == [] && Given(v, es + [e], id, ThrownAway) == [])
  {
    var s, t := Exec(v, Init, es), Exec(v, Init, es + [e]);
    ReactorInvariant(v, es + [e]);
    ExecNamed(v, es);
    ExecSnoc(v, Init, es, e);
    StepKeeps(v, s, e, id);
    GivenIsLogged(v, es + [e], id);
    ShutMoment(s.conns[id], t.conns[id], Waiting(Batch(t), t.queue, id));
  }

  lemma ShutMoment(c: Conn, d: Conn, q: string)
    requires ShutsNow(c, d) && ConnInv(d) && Balanced(d, q)
    ensures var shuts := d.log.shutdowns;
      |shuts| > |c.log.shutdowns| && shuts[|shuts| - 1].state != Disconnected ==>
        (Complete(shuts[|shuts| - 1]) <==> q == [] && d.log.vanished == [])
  {
    var shuts := d.log.shutdowns;
    if |shuts| > |c.log.shutdowns| && shuts[|shuts| - 1].state != Disconnected {
      assert shuts[|shuts| - 1] == ShutNow(d) && ShutNow(d) in shuts;
      ShutCompleteIff(d, q);
    }
  }

  /** send() on connection id, of a string or of a Buffer, is called in the loop thread only. */
  predicate SendsInLoop(e: Event, id: nat)
  {
    e.Call? && e.id == id && (e.call.Send? || e.call.SendBuffer?) ==> e.inLoop
  }

  predicate AllSendsInLoop(es: seq<Event>, id: nat)
  {
    forall e :: e in es ==> SendsInLoop(e, id)
  }

  lemma {:induction false} NothingGivenElsewhere(v: Server, es: seq<Event>, id: nat)
    requires AllSendsInLoop(es, id)
    ensures Given(v, es, id, Queued) == [] && Given(v, es, id, ThrownAway) == []
  {
    if es != [] {
      assert es[|es| - 1] in es;
      NothingGivenElsewhere(v, es[..|es| - 1], id);
    }
  }

  /**
   * When send() on a connection is only called in the loop thread, its write side
   * is shut down before the close only with every byte accepted so far in the
   * kernel or dropped on a fault, in every run.
   */
  lemma {:induction false} LoopThreadShutdownComplete(v: Server, es: seq<Event>, id: nat)
    requires AllSendsInLoop(es, id)
    ensures var s := Exec(v, Init, es);
      id < |s.conns| ==> forall sh :: sh in s.conns[id].log.shutdowns && sh.state != Disconnected ==> Complete(sh)
  {
    if es != [] {
      var before, e := es[..|es| - 1], es[|es| - 1];
      var s, t := Exec(v, Init, before), Exec(v, Init, es);
      LoopThreadShutdownComplete(v, before, id);
      ExecNamed(v, before);
      StepConns(v, s, e, id);
      if id < |s.conns| {
        ReactorInvariant(v, es);
        NothingGivenElsewhere(v, es, id);
        GivenIsLogged(v, es, id);
        StepKeeps(v, s, e, id);
        NewShutComplete(s.conns[id], t.conns[id], Waiting(Batch(t), t.queue, id));
      }
    }
  }

  lemma NewShutComplete(c: Conn, d: Conn, q: string)
    requires ShutsNow(c, d) && ConnInv(d) && Balanced(d, q) && d.log.acceptedOff == [] && d.log.vanished == []
    requires forall sh :: sh in c.log.shutdowns && sh.state != Disconnected ==> Complete(sh)
    ensures forall sh :: sh in d.log.shutdowns && sh.state != Disconnected ==> Complete(sh)
  {
    if d.log.shutdowns != c.log.shutdowns && d.state != Disconnected {
      assert |TextOf(d.log.sent, false)| + |d.log.discarded| + |q| == 0;
      ShutMoment(c, d, q);
    }
  }

  /** Since a shutdown before the close, nothing has reached the kernel and nothing waits to. */
  predicate Finished(c: Conn)
  {
    forall sh :: sh in c.log.shutdowns && sh.state != Disconnected ==>
      sh.kernel == c.log.kernel && c.output == [] && Rank(c.state) >= 2
  }

  lemma SendFinished(c: Conn, data: string, inLoop: bool, w: WriteResult)
    requires ConnInv(c) && Finished(c)
    ensures Finished(DoSend(c, data, inLoop, w).conn) && Finished(DoSendBuffer(c, data, inLoop, w).conn)
  {
    SendShuts(c, data, inLoop, w);
  }

  lemma CallFinished(c: Conn, call: UserCall, inLoop: bool, w: WriteResult)
    requires ConnInv(c) && Finished(c)
    ensures Finished(DoUserCall(c, call, inLoop, w).conn)
  {
    if call.Send? || call.SendBuffer? {
      SendFinished(c, call.data, inLoop, w);
    }
  }

  lemma EmptySendWritesNothing(c: Conn, w: WriteResult)
    ensures var d := DoSendInLoop(c, [], false, w).conn;
      d.log.kernel == c.log.kernel && d.output == c.output && d.log.shutdowns == c.log.shutdowns && d.state == c.state
  {
    assert Connections.Accepted(c, [], w) == 0;
    assert c.log.kernel + [] == c.log.kernel;
  }

  lemma QueuedSendFinished(c: Conn, w: WriteResult)
    requires Finished(c)
    ensures Finished(DoSendInLoop(c, [], false, w).conn)
  {
    EmptySendWritesNothing(c, w);
  }

  lemma FunctorFinished(c: Conn, f: Functor, w: WriteResult)
    requires WriteInterest(c) && Finished(c) && PayloadOf(f) == []
    requires f == ShutdownInLoop ==> Rank(c.state) >= 2
    requires f == ConnectEstablished ==> c.state == Connecting
    ensures Finished(RunFunctor(c, f, w).conn)
  {
    match f
    case SendInLoop(_) => QueuedSendFinished(c, w);
    case ShutdownInLoop => ShutdownFinished(c);
    case _ => SameFinished(c, RunFunctor(c, f, w).conn);
  }

  lemma ShutdownFinished(c: Conn)
    requires WriteInterest(c) && Finished(c) && Rank(c.state) >= 2
    ensures Finished(DoShutdownInLoop(c))
  {
  }

  lemma SameFinished(c: Conn, d: Conn)
    requires Finished(c) && d.log.shutdowns == c.log.shutdowns && d.log.kernel == c.log.kernel && d.output == c.output
    requires c.state != Connecting ==> Rank(c.state) <= Rank(d.state)
    ensures Finished(d)
  {
  }

  lemma ReadFinished(c: Conn, r: ReadResult)
    requires Finished(c)
    ensures Finished(DoHandleRead(c, r))
  {
  }

  lemma EmptyWriteWritesNothing(c: Conn, w: WriteResult)
    requires c.output == []
    ensures var d := DoHandleWrite(c, w).conn; d.log.kernel == c.log.kernel && d.output == [] && d.state == c.state
  {
    assert c.log.kernel + [] == c.log.kernel;
  }

  lemma WriteShutsEmpty(c: Conn, w: WriteResult)
    ensures var d := DoHandleWrite(c, w).conn;
      d.log.shutdowns == c.log.shutdowns
      || (d.log.shutdowns == c.log.shutdowns + [ShutNow(d)] && d.state == Disconnecting && d.output == [])
  {
  }

  lemma StillFinished(c: Conn, d: Conn)
    requires Finished(c)
    requires c.output == [] ==> d.log.kernel == c.log.kernel && d.output == [] && d.state == c.state
    requires d.log.shutdowns == c.log.shutdowns
             || (d.log.shutdowns == c.log.shutdowns + [ShutNow(d)] && d.state == Disconnecting && d.output == [])
    ensures Finished(d)
  {
  }

  lemma WriteFinished(c: Conn, w: WriteResult)
    requires Finished(c)
    ensures Finished(DoHandleWrite(c, w).conn)
  {
    WriteShutsEmpty(c, w);
    if c.output == [] {
      EmptyWriteWritesNothing(c, w);
    }
    StillFinished(c, DoHandleWrite(c, w).conn);
  }

  lemma ActFinished(s: State, e: Event, id: nat)
    requires ConnsOk(s.conns, s.stage) && TasksOk(s.stage, Batch(s), s.queue)
    requires Ordered(s.conns, All(s)) && id < |s.conns| && Finished(s.conns[id])
    requires QueuedText(Batch(s), id) == []
    ensures Finished(Acted(s, e, id))
  {
    var c := s.conns[id];
    match e
    case Call(_, call, inLoop, w) => CallFinished(c, call, inLoop, w);
    case Handle(r, w) =>
      ReadFinished(c, r);
      WriteFinished(c, w);
    case RunTask(w) =>
      if s.phase.Draining? && s.phase.batch != [] && s.phase.batch[0].id == id {
        assert All(s)[0] == s.phase.batch[0];
        PopTasks(s.stage, s.phase.batch, s.queue);
        FunctorFinished(c, s.phase.batch[0].f, w);
      }
    case _ =>
  }

  /**
   * When send() on a connection is only called in the loop thread, a shutdown of
   * it before the close is final: in every run the kernel has then what it had at
   * the shutdown.
   */
  lemma {:induction false} ShutdownIsFinal(v: Server, es: seq<Event>, id: nat)
    requires AllSendsInLoop(es, id)
    ensures var s := Exec(v, Init, es); id < |s.conns| ==> Finished(s.conns[id])
  {
    if es != [] {
      var before, e := es[..|es| - 1], es[|es| - 1];
      var s := Exec(v, Init, before);
      ShutdownIsFinal(v, before, id);
      ExecNamed(v, before);
      StepConns(v, s, e, id);
      if id < |s.conns| {
        ReactorInvariant(v, before);
        ExecOrdered(v, before);
        NothingGivenElsewhere(v, before, id);
        AcceptedTextConserved(v, before, id);
        ActFinished(s, e, id);
      }
    }
  }

  // ---------------------------------------------------------------------------
  // Runs that show the restrictions to be needed

  lemma ExecOne(v: Server, s: State, a: Event)
    ensures Exec(v, s, [a]) == Step(v, s, a)
  {
    ExecSnoc(v, s, [], a);
    assert [] + [a] == [a];
  }

  lemma ExecTwo(v: Server, s: State, a: Event, b: Event)
    ensures Exec(v, s, [a, b]) == Step(v, Step(v, s, a), b)
  {
    ExecOne(v, s, a);
    ExecSnoc(v, s, [a], b);
    assert [a] + [b] == [a, b];
  }

  /** One connection on the server's own loop that has accepted one byte from another thread. */
  predicate OneByteQueued(s: State)
  {
    && |s.stage| == |s.names| == 1
    && s.conns == [Connections.Accept(DoConnectEstablished(NewConn(false)), "x", false)]
  }

  lemma AcceptThenSend(v: Server, w: WriteResult)
    requires v.sameLoop
    ensures OneByteQueued(Exec(v, Init, [Accept(false), Call(0, Send("x"), false, w)]))
  {
    var a, b := Event.Accept(false), Call(0, Send("x"), false, w);
    ExecTwo(v, Init, a, b);
    assert Step(v, Init, a).conns == [DoConnectEstablished(NewConn(false))];
  }

  lemma ShutdownBeforeByte(v: Server, s: State, w: WriteResult)
    requires OneByteQueued(s)
    ensures var c := Step(v, s, Call(0, Shutdown, true, w)).conns;
      |c| == 1 && c[0].log.shutdowns == [Shut(Disconnecting, [], [], 1)]
  {
  }

  lemma BufferVanishes(v: Server, w: WriteResult)
    requires v.sameLoop
    ensures Single(Exec(v, Init, [Accept(false), Call(0, SendBuffer("x"), false, w)]), Vanish(Established(), "x"), Open, [], Polling)
  {
    ExecTwo(v, Init, Event.Accept(false), Call(0, SendBuffer("x"), false, w));
    assert Tasks(0, []) == [];
    assert Single(Step(v, Init, Accept(false)), Established(), Open, [], Polling);
  }

  /** send() of a Buffer in another thread: nothing is queued at the shutdown, and the byte is lost all the same. */
  lemma BufferSendMissesShutdown(v: Server, w: WriteResult)
    requires v.sameLoop
    ensures var es := [Accept(false), Call(0, SendBuffer("x"), false, w), Call(0, Shutdown, true, w)];
      var s := Exec(v, Init, es);
      && s.queue == [] && Batch(s) == [] && |s.conns| == 1 && s.conns[0].log.shutdowns == [Shut(Disconnecting, [], [], 1)]
      && !Complete(s.conns[0].log.shutdowns[0])
  {
    var es, d := [Event.Accept(false), Call(0, SendBuffer("x"), false, w)], Call(0, Shutdown, true, w);
    BufferVanishes(v, w);
    VanishedShutdown(v, Exec(v, Init, es), w);
    ExecSnoc(v, Init, es, d);
    assert es + [d] == [Event.Accept(false), Call(0, SendBuffer("x"), false, w), d];
  }

  lemma VanishedShutdown(v: Server, s: State, w: WriteResult)
    requires Single(s, Vanish(Established(), "x"), Open, [], Polling)
    ensures var t := Step(v, s, Call(0, Shutdown, true, w));
      t.queue == [] && Batch(t) == [] && |t.conns| == 1 && t.conns[0].log.shutdowns == [Shut(Disconnecting, [], [], 1)]
  {
    assert Tasks(0, []) == [];
  }

  lemma QueuedThenShut(v: Server, w: WriteResult)
    requires v.sameLoop
    ensures var a := Connections.Accept(Established(), "x", false);
      Single(Exec(v, Init, [Accept(false), Call(0, Send("x"), false, w)] + [Call(0, Shutdown, true, w)]),
             DoShutdown(a, true, w).conn, Open, [Task(0, SendInLoop("x"))], Polling)
  {
    var a := Connections.Accept(Established(), "x", false);
    ExecTwo(v, Init, Event.Accept(false), Call(0, Send("x"), false, w));
    ExecSnoc(v, Init, [Event.Accept(false), Call(0, Send("x"), false, w)], Call(0, Shutdown, true, w));
    assert Tasks(0, []) == [] && Tasks(0, [SendInLoop("x")]) == [Task(0, SendInLoop("x"))];
    assert Single(Step(v, Init, Accept(false)), Established(), Open, [], Polling);
    assert Single(Exec(v, Init, [Event.Accept(false), Call(0, Send("x"), false, w)]), a, Open, [Task(0, SendInLoop("x"))], Polling);
  }

  lemma QueuedIsTaken(v: Server, s: State, c: Conn)
    requires Single(s, c, Open, [Task(0, SendInLoop("x"))], Polling)
    ensures Single(Exec(v, s, [Poll([]), EndWalk]), c, Open, [], Draining([Task(0, SendInLoop("x"))]))
  {
    ExecTwo(v, s, Poll([]), EndWalk);
    assert Deliverable(s, []);
    assert Single(Step(v, s, Poll([])), c, Open, [Task(0, SendInLoop("x"))], Walking([]));
  }

  lemma QueuedIsRun(v: Server, s: State, c: Conn, w: WriteResult)
    requires Single(s, c, Open, [Task(0, SendInLoop("x"))], Polling)
    ensures var t := Exec(v, s, [Poll([]), EndWalk] + [RunTask(w)]); t.conns == [DoSendInLoop(c, "x", false, w).conn]
  {
    QueuedIsTaken(v, s, c);
    ExecSnoc(v, s, [Poll([]), EndWalk], RunTask(w));
    AbsorbConns(v, Popped(Exec(v, s, [Poll([]), EndWalk])), 0, DoSendInLoop(c, "x", false, w));
  }

  /** Otherwise a shutdown is not final: a send that is still queued is handed to the socket after it. */
  lemma QueuedSendFollowsShutdown(v: Server, w: WriteResult)
    requires v.sameLoop
    ensures var es := [Accept(false), Call(0, Send("x"), false, w)] + [Call(0, Shutdown, true, w)];
      var l := Exec(v, Init, es + ([Poll([]), EndWalk] + [RunTask(w)])).conns;
      |l| == 1 && |l[0].log.shutdowns| == 1 && l[0].log.shutdowns[0].sent == [] && |l[0].log.sent| == 1
  {
    var es := [Event.Accept(false), Call(0, Send("x"), false, w)] + [Call(0, Shutdown, true, w)];
    var a := Connections.Accept(Established(), "x", false);
    QueuedThenShut(v, w);
    QueuedIsRun(v, Exec(v, Init, es), DoShutdown(a, true, w).conn, w);
    ExecConcat(v, Init, es, [Poll([]), EndWalk] + [RunTask(w)]);
  }

  /** Either read control can stand behind the destruction: whoever queues it must keep the connection alive. */
  lemma ReadControlBehindDestroy(v: Server, call: UserCall, w: WriteResult)
    requires v.sameLoop && (call.StartRead? || call.StopRead?)
    ensures var a, b := [Event.Accept(false), Poll([Ready(0, true, false)])], [Handle(Got([]), w), Handle(Got([]), w)];
      Exec(v, Init, a + b + [Call(0, call, false, w)]).queue
        == [Task(0, ConnectDestroyed), Task(0, if call.StartRead? then StartReadInLoop else StopReadInLoop)]
  {
    var a, b := [Event.Accept(false), Poll([Ready(0, true, false)])], [Handle(Got([]), w), Handle(Got([]), w)];
    PeerReported(v);
    PeerClosed(v, Exec(v, Init, a), w);
    ExecConcat(v, Init, a, b);
    ExecSnoc(v, Init, a + b, Call(0, call, false, w));
    ControlQueued(v, Exec(v, Init, a + b), call, w);
  }

  lemma ControlQueued(v: Server, s: State, call: UserCall, w: WriteResult)
    requires Single(s, DoHandleClose(Established()), Erased, [Task(0, ConnectDestroyed)], Walking([]))
    requires call.StartRead? || call.StopRead?
    ensures Step(v, s, Call(0, call, false, w)).queue
        == [Task(0, ConnectDestroyed), Task(0, if call.StartRead? then StartReadInLoop else StopReadInLoop)]
  {
    var f := if call.StartRead? then StartReadInLoop else StopReadInLoop;
    assert Tasks(0, [f]) == [Task(0, f)];
  }

  /** A byte accepted from another thread can miss the shutdown. */
  lemma OffLoopSendMissesShutdown(v: Server, w: WriteResult)
    requires v.sameLoop
    ensures var es := [Accept(false), Call(0, Send("x"), false, w), Call(0, Shutdown, true, w)];
      var c := Exec(v, Init, es).conns;
      |c| == 1 && c[0].log.shutdowns == [Shut(Disconnecting, [], [], 1)] && !Complete(c[0].log.shutdowns[0])
  {
    var es, d := [Event.Accept(false), Call(0, Send("x"), false, w)], Call(0, Shutdown, true, w);
    AcceptThenSend(v, w);
    ShutdownBeforeByte(v, Exec(v, Init, es), w);
    ExecSnoc(v, Init, es, d);
    assert es + [d] == [Event.Accept(false), Call(0, Send("x"), false, w), d];
  }

  lemma ExecConcat(v: Server, s: State, es: seq<Event>, fs: seq<Event>)
    ensures Exec(v, s, es + fs) == Exec(v, Exec(v, s, es), fs)
  {
    var run, step := (x: State, xs: seq<Event>) => Exec(v, x, xs), (x: State, e: Event) => Step(v, x, e);
    forall x, xs, e ensures run(x, xs + [e]) == step(run(x, xs), e) {
      ExecSnoc(v, x, xs, e);
    }
    RunConcat(run, step, s, es, fs);
    assert run(s, es + fs) == Exec(v, s, es + fs) && run(run(s, es), fs) == Exec(v, Exec(v, s, es), fs);
  }

  /** The peer closes at once: the connection is read, closed, and destroyed in the same iteration. */
  function PeerCloses(w: WriteResult): seq<Event>
  {
    [Accept(false), Poll([Ready(0, true, false)])] + [Handle(Got([]), w), Handle(Got([]), w)] + [EndWalk, RunTask(w)]
  }

  function Established(): Conn { DoConnectEstablished(NewConn(false)) }

  predicate Single(s: State, c: Conn, stage: Stage, queue: seq<Task>, phase: Phase)
  {
    s.conns == [c] && s.stage == [stage] && |s.names| == 1 && s.queue == queue && s.phase == phase
  }

  lemma PeerReported(v: Server)
    requires v.sameLoop
    ensures Single(Exec(v, Init, [Accept(false), Poll([Ready(0, true, false)])]), Established(), Open, [], Walking([Ready(0, true, false)]))
  {
    var ready := [Ready(0, true, false)];
    ExecTwo(v, Init, Accept(false), Poll(ready));
    var s := Step(v, Init, Accept(false));
    assert Single(s, Established(), Open, [], Polling);
    assert Deliverable(s, ready);
  }

  lemma PeerClosed(v: Server, s: State, w: WriteResult)
    requires v.sameLoop && Single(s, Established(), Open, [], Walking([Ready(0, true, false)]))
    ensures Single(Exec(v, s, [Handle(Got([]), w), Handle(Got([]), w)]),
                   DoHandleClose(Established()), Erased, [Task(0, ConnectDestroyed)], Walking([]))
  {
    var h := Handle(Got([]), w);
    ExecTwo(v, s, h, h);
    var c, rest := DoHandleClose(Established()), [Ready(0, false, false)];
    assert [Ready(0, true, false)][1..] == [] && [Ready(0, false, false)] + [] == rest && rest[1..] == [];
    assert Tasks(0, []) == [] && Single(Step(v, s, h), c, Erased, [Task(0, ConnectDestroyed)], Walking(rest));
  }

  lemma PeerDestroyed(v: Server, s: State, w: WriteResult)
    requires Single(s, DoHandleClose(Established()), Erased, [Task(0, ConnectDestroyed)], Walking([]))
    ensures Single(Exec(v, s, [EndWalk, RunTask(w)]), DoConnectDestroyed(DoHandleClose(Established())), Gone, [], Draining([]))
  {
    ExecTwo(v, s, EndWalk, RunTask(w));
    var t := Task(0, ConnectDestroyed);
    assert [t][1..] == [] && Tasks(0, []) == [];
    assert Single(Step(v, s, EndWalk), DoHandleClose(Established()), Erased, [], Draining([t]));
  }

  lemma PeerClosesRun(v: Server, w: WriteResult)
    requires v.sameLoop
    ensures Single(Exec(v, Init, PeerCloses(w)), DoConnectDestroyed(DoHandleClose(Established())), Gone, [], Draining([]))
  {
    var a, b := [Event.Accept(false), Poll([Ready(0, true, false)])], [Handle(Got([]), w), Handle(Got([]), w)];
    PeerReported(v);
    PeerClosed(v, Exec(v, Init, a), w);
    ExecConcat(v, Init, a, b);
    PeerDestroyed(v, Exec(v, Init, a + b), w);
    ExecConcat(v, Init, a + b, [EndWalk, RunTask(w)]);
  }

  function ThenPolled(call: UserCall, readable: bool, w: WriteResult): seq<Event>
  {
    [Call(0, call, true, w), EndDrain] + [Poll([Ready(0, readable, false)])]
  }

  lemma PolledAgain(v: Server, s: State, call: UserCall, readable: bool, c: Conn, st: Stage, w: WriteResult)
    requires s.phase == Draining([])
    requires Single(Step(v, s, Call(0, call, true, w)), c, st, [], Draining([]))
    requires c.channel.index == Added && (readable ==> c.channel.reading)
    ensures Single(Exec(v, s, ThenPolled(call, readable, w)), c, st, [], Walking([Ready(0, readable, false)]))
  {
    var a := [Call(0, call, true, w), EndDrain];
    ExecTwo(v, s, Call(0, call, true, w), EndDrain);
    DrainedAndPolled(v, Step(v, s, Call(0, call, true, w)), readable, c, st);
    ExecSnoc(v, s, a, Poll([Ready(0, readable, false)]));
  }

  lemma DrainedAndPolled(v: Server, s: State, readable: bool, c: Conn, st: Stage)
    requires Single(s, c, st, [], Draining([])) && c.channel.index == Added && (readable ==> c.channel.reading)
    ensures var t := Step(v, Step(v, s, EndDrain), Poll([Ready(0, readable, false)]));
      Single(t, c, st, [], Walking([Ready(0, readable, false)]))
  {
    assert Deliverable(Step(v, s, EndDrain), [Ready(0, readable, false)]);
  }

  /** Without any startRead: stopRead after the removal puts a destroyed connection into the active list. */
  lemma StopReadReportsRemoved(v: Server, w: WriteResult)
    requires v.sameLoop
    ensures var s := Exec(v, Init, PeerCloses(w) + ThenPolled(StopRead, false, w));
      && s.phase == Walking([Ready(0, false, false)]) && s.stage == [Gone]
      && |s.conns| == 1 && s.conns[0].log.removed && !s.conns[0].log.restarted
  {
    var s := Exec(v, Init, PeerCloses(w));
    PeerClosesRun(v, w);
    var c := DoStopReadInLoop(s.conns[0]);
    assert Tasks(0, []) == [] && Single(Step(v, s, Call(0, StopRead, true, w)), c, Gone, [], Draining([]));
    PolledAgain(v, s, StopRead, false, c, Gone, w);
    ExecConcat(v, Init, PeerCloses(w), ThenPolled(StopRead, false, w));
  }

  /**
   * The converse of CloseCallbackOnce: in every run, startRead on any closed
   * connection lets the end of file that is still there close it again.
   */
  lemma {:induction false} StartReadAlwaysClosesAgain(v: Server, es: seq<Event>, id: nat, w: WriteResult)
    requires Exec(v, Init, es).phase.Polling? && id < |Exec(v, Init, es).conns|
    requires var c := Exec(v, Init, es).conns[id]; c.state == Disconnected && !c.log.restarted
    ensures var fs := [Call(id, StartRead, true, w), Poll([Ready(id, true, false)])];
      var t := Exec(v, Init, es + fs + [Handle(Got([]), w)]);
      id < |t.conns| && t.conns[id].log.closes == Exec(v, Init, es).conns[id].log.closes + 1
  {
    var s := Exec(v, Init, es);
    var a, b := Call(id, StartRead, true, w), Poll([Ready(id, true, false)]);
    ReactorInvariant(v, es);
    StartReadStep(v, s, id, w);
    ExecConcat(v, Init, es, [a, b]);
    ExecTwo(v, s, a, b);
    ExecSnoc(v, Init, es + [a, b], Handle(Got([]), w));
    ReadingPolled(v, Step(v, s, a), id);
    EndOfFileCloses(v, Exec(v, Init, es + [a, b]), id, w);
  }

  lemma StartReadStep(v: Server, s: State, id: nat, w: WriteResult)
    requires |s.conns| == |s.stage| == |s.names| && id < |s.conns| && ConnInv(s.conns[id])
    requires s.conns[id].state == Disconnected && !s.conns[id].log.restarted
    ensures var t := Step(v, s, Call(id, StartRead, true, w));
      && |t.conns| == |t.stage| == |t.names| == |s.conns| && t.phase == s.phase
      && t.conns[id].channel.reading && t.conns[id].channel.index == Added
      && t.conns[id].log.closes == s.conns[id].log.closes
  {
    StartReadAfterCloseClosesTwice(s.conns[id]);
  }

  lemma ReadingPolled(v: Server, s: State, id: nat)
    requires |s.conns| == |s.stage| == |s.names| && id < |s.conns| && s.phase.Polling?
    requires s.conns[id].channel.reading && s.conns[id].channel.index == Added
    ensures Step(v, s, Poll([Ready(id, true, false)])) == s.(phase := Walking([Ready(id, true, false)]))
  {
    assert Deliverable(s, [Ready(id, true, false)]);
  }

  lemma EndOfFileCloses(v: Server, s: State, id: nat, w: WriteResult)
    requires |s.conns| == |s.stage| == |s.names| && id < |s.conns| && s.phase == Walking([Ready(id, true, false)])
    ensures var t := Step(v, s, Handle(Got([]), w)); |t.conns| == |s.conns| && t.conns[id].log.closes == s.conns[id].log.closes + 1
  {
  }

  /** startRead after the removal: the end of file closes the connection a second time. */
  lemma StartReadClosesTwice(v: Server, w: WriteResult)
    requires v.sameLoop
    ensures var s := Exec(v, Init, PeerCloses(w) + ThenPolled(StartRead, true, w) + [Handle(Got([]), w)]);
      |s.conns| == 1 && s.conns[0].log.closes == 2 && s.queue == [Task(0, ConnectDestroyed)]
  {
    var s, h := Exec(v, Init, PeerCloses(w)), Handle(Got([]), w);
    PeerClosesRun(v, w);
    var c := DoStartReadInLoop(s.conns[0]);
    assert Tasks(0, []) == [] && Single(Step(v, s, Call(0, StartRead, true, w)), c, Astray, [], Draining([]));
    PolledAgain(v, s, StartRead, true, c, Astray, w);
    ExecConcat(v, Init, PeerCloses(w), ThenPolled(StartRead, true, w));
    ClosedAgain(v, Exec(v, Init, PeerCloses(w) + ThenPolled(StartRead, true, w)), c, w);
    ExecSnoc(v, Init, PeerCloses(w) + ThenPolled(StartRead, true, w), h);
  }

  lemma ClosedAgain(v: Server, s: State, c: Conn, w: WriteResult)
    requires v.sameLoop && Single(s, c, Astray, [], Walking([Ready(0, true, false)])) && c.log.closes == 1
    ensures var t := Step(v, s, Handle(Got([]), w));
      |t.conns| == 1 && t.conns[0].log.closes == 2 && t.queue == [Task(0, ConnectDestroyed)]
  {
    assert Tasks(0, []) == [];
  }
}

/** The class TcpServer: the map of connections and their numbering. */
module TcpServers {
  import opened Pollers
  import opened Connections
  import opened TcpConnections
  import opened ConnNames

  class TcpServer {
    const name: string
    const listen: Endpoint
    var nextConnId: nat
    var connections: map<string, TcpConnection>
    // What was handed to the io loops, in order.
    var handed: seq<(TcpConnection, Functor)>
    ghost var accepted: set<TcpConnection>  // every connection so far

    /** The connection has the name printed for this number. */
    predicate Carries(c: TcpConnection, id: nat)
    {
      c.name == ConnName(name, ToIpPort(listen), id)
    }

    ghost predicate NumberedBelow(c: TcpConnection, n: nat)
    {
      exists id :: 1 <= id < n && Carries(c, id)
    }

    /** No two of the accepted connections share a name. */
    ghost predicate DistinctNames()
      reads this
    {
      forall c, d :: c in accepted && d in accepted && c.name == d.name ==> c == d
    }

    ghost predicate Valid()
      reads this
    {
      && 1 <= nextConnId <= kMaxConnId && DistinctNames()
      && (forall c :: c in accepted ==> NumberedBelow(c, nextConnId))
      && (forall n :: n in connections ==> connections[n] in accepted && connections[n].name == n)
    }

    /** connections_ holds the connection. */
    ghost predicate Holds(c: TcpConnection)
      reads this
    {
      c.name in connections && connections[c.name] == c
    }

    constructor (name: string, listen: Endpoint)
      ensures Valid() && this.name == name && this.listen == listen && accepted == {}
      ensures connections == map[] && nextConnId == 1 && handed == []
    {
      this.name, this.listen := name, listen;
      nextConnId, connections, handed, accepted := 1, map[], [], {};
    }

    /**
     * newConnection: the new connection, on a channel of its own in its loop's
     * poller, joins the map and displaces none. The counter is an int.
     */
    method NewConnection(sockfd: int, poller: EpollPoller, notify: bool) returns (conn: TcpConnection)
      requires Valid() && nextConnId < kMaxConnId
      requires poller.Valid() && forall c :: c in poller.universe ==> c.fd != sockfd
      modifies this, poller`universe
      ensures Valid() && fresh(conn) && conn.Valid() && conn.View() == NewConn(notify)
      ensures conn.name == ConnName(name, ToIpPort(listen), old(nextConnId)) && nextConnId == old(nextConnId) + 1
      ensures conn.poller == poller && conn.channel.fd == sockfd && poller.universe == old(poller.universe) + {conn.channel}
      ensures accepted == old(accepted) + {conn} && Holds(conn)
      ensures forall c :: c in old(accepted) ==> c.name != conn.name && (Holds(c) <==> old(Holds(c)))
      ensures handed == old(handed) + [(conn, ConnectEstablished)]
    {
      var connName := ConnName(name, ToIpPort(listen), nextConnId);
      var channel := new Channel(sockfd);
      poller.Adopt(channel);
      conn := new TcpConnection(connName, channel, poller, notify);
      Enter(conn);
    }

    lemma NextNameIsNew(conn: TcpConnection)
      requires Valid() && nextConnId < kMaxConnId && Carries(conn, nextConnId)
      ensures forall c :: c in accepted ==> c.name != conn.name
    {
      forall c | c in accepted ensures c.name != conn.name {
        var id :| 1 <= id < nextConnId && Carries(c, id);
        NamesAlwaysDiffer(name, listen, id, nextConnId);
      }
    }

    /** The new connection gets the next number and its place in the map. */
    method Enter(conn: TcpConnection)
      requires Valid() && nextConnId < kMaxConnId && Carries(conn, nextConnId)
      modifies this
      ensures Valid() && nextConnId == old(nextConnId) + 1
      ensures accepted == old(accepted) + {conn} && connections == old(connections)[conn.name := conn]
      ensures forall c :: c in old(accepted) ==> c.name != conn.name
      ensures handed == old(handed) + [(conn, ConnectEstablished)]
    {
      NextNameIsNew(conn);
      forall c | c in accepted ensures NumberedBelow(c, nextConnId + 1) {
        var id :| 1 <= id < nextConnId && Carries(c, id);
      }
      nextConnId := nextConnId + 1;
      connections := connections[conn.name := conn];
      handed := handed + [(conn, ConnectEstablished)];
      accepted := accepted + {conn};
    }

    /** removeConnectionInLoop: this connection leaves the map, if it was there, and no other does. */
    method RemoveConnectionInLoop(conn: TcpConnection)
      requires Valid() && conn in accepted
      modifies this
      ensures Valid() && accepted == old(accepted)
      ensures forall c :: c in accepted ==> (Holds(c) <==> old(Holds(c)) && c != conn)
      ensures handed == old(handed) + [(conn, ConnectDestroyed)]
    {
      connections := connections - {conn.name};
      handed := handed + [(conn, ConnectDestroyed)];
    }
  }
}
