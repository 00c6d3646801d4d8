/**
 * src/TcpConnection.cc: what each member function does to one connection, with
 * the socket as an oracle. Functors handed to the loop are returned in order;
 * the module Reactor runs them.
 */
module Connections {
  import opened Seqs
  import opened Pollers
  import opened Buffers

  datatype StateE = Connecting | Connected | Disconnecting | Disconnected

  function Rank(s: StateE): nat
  {
    match s case Connecting => 0 case Connected => 1 case Disconnecting => 2 case Disconnected => 3
  }

  /** What a connection asks its loop to run. */
  datatype Functor =
    | ConnectEstablished
    | SendInLoop(data: string)
    | ShutdownInLoop
    | ForceCloseInLoop
    | StartReadInLoop
    | StopReadInLoop
    | WriteComplete
    | ConnectDestroyed

  datatype Errno = WouldBlock | Pipe | ConnReset | OtherErrno
  datatype WriteResult = Wrote(n: nat) | WriteFailed(errno: Errno)

  /**
   * A message handed to sendInLoop of a connection that is not disconnected,
   * by send() in the loop thread (direct) or by a functor.
   */
  datatype Message = Message(data: string, direct: bool, dropped: bool)

  /** The moment of a socket_->shutdownWrite(), with the number of bytes send() had accepted. */
  datatype Shut = Shut(state: StateE, kernel: string, sent: seq<Message>, accepted: nat)

  /** Histories: what has happened to a connection so far. */
  datatype Log = Log(
    acceptedIn: string,     // what send() accepted in the loop thread
    acceptedOff: string,    // what send() accepted and queued in other threads, in order
    vanished: string,       // what send() of a Buffer took in other threads and threw away
    discarded: string,      // what sendInLoop gave up because of the disconnect
    kernel: string,         // bytes taken by ::write
    sent: seq<Message>,
    shutdowns: seq<Shut>,
    closes: nat,            // calls of closeCallback_
    removed: bool,          // connectDestroyed has run
    restarted: bool,        // startReadInLoop acted after the close
    revived: bool)          // startReadInLoop or stopReadInLoop acted after the removal

  datatype Conn = Conn(
    state: StateE,
    reading: bool,
    channel: Interest,
    input: string,          // readable bytes of inputBuffer_
    output: string,         // readable bytes of outputBuffer_
    notify: bool,           // writeCompleteCallback_ is set
    log: Log)

  datatype Outcome = Outcome(conn: Conn, queued: seq<Functor>)

  const EmptyLog := Log([], [], [], [], [], [], [], 0, false, false, false)

  function AcceptedBytes(l: Log): nat
  {
    |l.acceptedIn| + |l.acceptedOff| + |l.vanished|
  }

  function NewConn(notify: bool): Conn
  {
    Conn(Connecting, true, Interest(false, false, New), [], [], notify, EmptyLog)
  }

  /** The bytes of the messages that were not dropped, in order. */
  function Delivered(sent: seq<Message>): string
  {
    if sent == [] then [] else
    Delivered(sent[..|sent| - 1]) + if sent[|sent| - 1].dropped then [] else sent[|sent| - 1].data
  }

  lemma DeliveredSnoc(sent: seq<Message>, m: Message)
    ensures Delivered(sent + [m]) == Delivered(sent) + if m.dropped then [] else m.data
  {
    assert (sent + [m])[..|sent|] == sent;
  }

  /** The rest of a message goes to the output buffer, and the channel waits for writability. */
  function Keep(c: Conn, rest: string): Conn
  {
    if rest == [] then c
    else c.(output := c.output + rest,
            channel := if c.channel.writing then c.channel else c.channel.EnableWriting())
  }

  function Completion(c: Conn): seq<Functor>
  {
    if c.notify then [WriteComplete] else []
  }

  /** sendInLoop writes directly only when nothing is waiting to be written. */
  predicate Direct(c: Conn)
  {
    !c.channel.writing && c.output == []
  }

  function Accepted(c: Conn, data: string, w: WriteResult): (n: nat)
    ensures n <= |data|
  {
    if Direct(c) && w.Wrote? then Min(w.n, |data|) else 0
  }

  predicate Fault(c: Conn, w: WriteResult)
  {
    Direct(c) && w.WriteFailed? && (w.errno == Pipe || w.errno == ConnReset)
  }

  function DoSendInLoop(c: Conn, data: string, direct: bool, w: WriteResult): Outcome
  {
    if c.state == Disconnected then Outcome(c.(log := c.log.(discarded := c.log.discarded + data)), []) else
    var n := Accepted(c, data, w);
    var m := Message(data, direct, Fault(c, w));
    var d := c.(log := c.log.(kernel := c.log.kernel + data[..n], sent := c.log.sent + [m]));
    Outcome(if Fault(c, w) then d else Keep(d, data[n..]),
            if Direct(c) && w.Wrote? && n == |data| then Completion(c) else [])
  }

  function ShutNow(c: Conn): Shut
  {
    Shut(c.state, c.log.kernel, c.log.sent, AcceptedBytes(c.log))
  }

  function DoShutdownInLoop(c: Conn): Conn
  {
    if c.channel.writing then c
    else c.(log := c.log.(shutdowns := c.log.shutdowns + [ShutNow(c)]))
  }

  /** The output buffer has just become empty. */
  function Drained(c: Conn): Outcome
  {
    var d := c.(channel := c.channel.DisableWriting());
    Outcome(if d.state == Disconnecting then DoShutdownInLoop(d) else d, Completion(c))
  }

  function DoHandleWrite(c: Conn, w: WriteResult): Outcome
  {
    if !c.channel.writing || w.WriteFailed? || w.n == 0 then Outcome(c, []) else
    var n := Min(w.n, |c.output|);
    var d := c.(log := c.log.(kernel := c.log.kernel + c.output[..n]), output := c.output[n..]);
    if d.output == [] then Drained(d) else Outcome(d, [])
  }

  function DoHandleClose(c: Conn): Conn
  {
    c.(state := Disconnected, channel := c.channel.DisableAll(), log := c.log.(closes := c.log.closes + 1))
  }

  function DoHandleRead(c: Conn, r: ReadResult): Conn
  {
    match r
    case Got(bytes) => if bytes == [] then DoHandleClose(c) else c.(input := c.input + bytes)
    case ReadFailed(_) => c
  }

  function DoForceCloseInLoop(c: Conn): Conn
  {
    if c.state == Connected || c.state == Disconnecting then DoHandleClose(c) else c
  }

  function DoStartReadInLoop(c: Conn): Conn
  {
    if !c.reading || !c.channel.reading then
      c.(channel := c.channel.EnableReading(), reading := true,
         log := c.log.(restarted := c.log.restarted || c.state == Disconnected, revived := c.log.revived || c.log.removed))
    else c
  }

  function DoStopReadInLoop(c: Conn): Conn
  {
    if c.reading || c.channel.reading then
      c.(channel := c.channel.DisableReading(), reading := false, log := c.log.(revived := c.log.revived || c.log.removed))
    else c
  }

  function DoConnectEstablished(c: Conn): Conn
  {
    c.(state := Connected, channel := c.channel.EnableReading())
  }

  function DoConnectDestroyed(c: Conn): Conn
  {
    var d := if c.state == Connected then c.(state := Disconnected, channel := c.channel.DisableAll()) else c;
    d.(channel := d.channel.Remove(), log := d.log.(removed := true))
  }

  /** What the loop does with a queued functor. */
  function RunFunctor(c: Conn, f: Functor, w: WriteResult): Outcome
  {
    match f
    case ConnectEstablished => Outcome(DoConnectEstablished(c), [])
    case SendInLoop(data) => DoSendInLoop(c, data, false, w)
    case ShutdownInLoop => Outcome(DoShutdownInLoop(c), [])
    case ForceCloseInLoop => Outcome(DoForceCloseInLoop(c), [])
    case StartReadInLoop => Outcome(DoStartReadInLoop(c), [])
    case StopReadInLoop => Outcome(DoStopReadInLoop(c), [])
    case WriteComplete => Outcome(c, [])
    case ConnectDestroyed => Outcome(DoConnectDestroyed(c), [])
  }

  /**
   * Calls a user may make at any time, from the loop thread or from another one.
   * SendBuffer is send of a Buffer that holds the data.
   */
  datatype UserCall =
    | Send(data: string) | SendBuffer(data: string)
    | Shutdown | ForceClose | ForceCloseWithDelay | StartRead | StopRead

  /**
   * The public member functions, which act at once in the loop thread and through
   * the queue elsewhere. The timer of forceCloseWithDelay later calls ForceClose.
   */
  function DoUserCall(c: Conn, call: UserCall, inLoop: bool, w: WriteResult): Outcome
  {
    match call
    case Send(data) => DoSend(c, data, inLoop, w)
    case SendBuffer(data) => DoSendBuffer(c, data, inLoop, w)
    case Shutdown => DoShutdown(c, inLoop, w)
    case ForceClose => Outcome(DoForceClose(c), if c.state in {Connected, Disconnecting} then [ForceCloseInLoop] else [])
    case ForceCloseWithDelay => Outcome(DoForceClose(c), [])
    case StartRead => if inLoop then Outcome(DoStartReadInLoop(c), []) else Outcome(c, [StartReadInLoop])
    case StopRead => if inLoop then Outcome(DoStopReadInLoop(c), []) else Outcome(c, [StopReadInLoop])
  }

  /** send() takes the text: the state allows it. */
  function Accept(c: Conn, data: string, inLoop: bool): Conn
  {
    if inLoop then c.(log := c.log.(acceptedIn := c.log.acceptedIn + data))
    else c.(log := c.log.(acceptedOff := c.log.acceptedOff + data))
  }

  function DoSend(c: Conn, data: string, inLoop: bool, w: WriteResult): Outcome
  {
    if c.state != Connected then Outcome(c, []) else
    if inLoop then DoSendInLoop(Accept(c, data, true), data, true, w)
    else Outcome(Accept(c, data, false), [SendInLoop(data)])
  }

  /**
   * send(Buffer*) as the source has it: off the loop thread the bind is built
   * and thrown away with the text, so nothing is queued.
   */
  function DoSendBuffer(c: Conn, data: string, inLoop: bool, w: WriteResult): Outcome
  {
    if c.state != Connected then Outcome(c, []) else
    if inLoop then DoSendInLoop(Accept(c, data, true), data, true, w)
    else Outcome(Vanish(c, data), [])
  }

  function Vanish(c: Conn, data: string): Conn
  {
    c.(log := c.log.(vanished := c.log.vanished + data))
  }

  function DoShutdown(c: Conn, inLoop: bool, w: WriteResult): Outcome
  {
    if c.state != Connected then Outcome(c, []) else
    var d := c.(state := Disconnecting);
    if inLoop then Outcome(DoShutdownInLoop(d), []) else Outcome(d, [ShutdownInLoop])
  }

  function DoForceClose(c: Conn): Conn
  {
    if c.state in {Connected, Disconnecting} then c.(state := Disconnecting) else c
  }

  // ---------------------------------------------------------------------------
  // What holds of a connection at all times

  /** Bytes given to the socket, then the output buffer, are the bytes sent less the dropped messages. */
  predicate StreamConserved(c: Conn)
  {
    c.log.kernel + c.output == Delivered(c.log.sent)
  }

  /** Before the close the channel waits for writability exactly when there is something to write. */
  predicate WriteInterest(c: Conn)
  {
    if c.state == Disconnected then !c.channel.writing
    else c.channel.writing <==> c.output != []
  }

  /** Before the close, shutdownWrite happens only when everything sent is in the kernel. */
  predicate ShutdownsGraceful(c: Conn)
  {
    forall sh :: sh in c.log.shutdowns && sh.state != Disconnected ==> sh.kernel == Delivered(sh.sent)
  }

  /** One close callback, and none before the close; after it nothing is read. Nothing is given up before it. */
  predicate ClosedOnce(c: Conn)
  {
    && (c.state != Disconnected ==> c.log.closes == 0 && !c.log.restarted && c.log.discarded == [])
    && (!c.log.restarted ==> c.log.closes <= 1)
    && (c.state == Disconnected && !c.log.restarted ==> !c.channel.reading)
  }

  /** What the channel waits for, the epoll set knows. */
  predicate Registered(c: Conn)
  {
    && (c.state == Connecting ==> c.channel == Interest(false, false, New) && c.log.sent == [] && !c.log.removed)
    && (c.log.removed ==> c.state == Disconnected) && (c.log.revived ==> c.log.removed)
    && (c.log.removed && !c.log.revived ==> c.channel.index == New)
    && (c.log.removed && c.log.revived && !c.log.restarted ==> c.channel.index == Added && !c.reading)
    && (!c.channel.None() && !c.log.removed ==> c.channel.index == Added)
    && (c.state != Connecting && !c.log.removed ==> c.channel.index != New)
  }

  predicate ConnInv(c: Conn)
  {
    StreamConserved(c) && WriteInterest(c) && ShutdownsGraceful(c) && ClosedOnce(c) && Registered(c)
  }

  lemma NewConnInv(notify: bool)
    ensures ConnInv(NewConn(notify))
  {
  }

  /** Everything but the conservation of the stream. */
  predicate Quiet(c: Conn)
  {
    WriteInterest(c) && ShutdownsGraceful(c) && ClosedOnce(c) && Registered(c)
  }

  lemma KeepInv(c: Conn, rest: string)
    requires Quiet(c) && Rank(c.state) in {1, 2}
    requires c.log.kernel + c.output + rest == Delivered(c.log.sent)
    ensures ConnInv(Keep(c, rest))
  {
    Assoc(c.log.kernel, c.output, rest);
    assert c.log.kernel + c.output + [] == c.log.kernel + c.output;
  }

  lemma SendInv(c: Conn, data: string, direct: bool, w: WriteResult)
    requires ConnInv(c) && c.state != Connecting
    ensures ConnInv(DoSendInLoop(c, data, direct, w).conn)
  {
    if c.state != Disconnected {
      var n, m := Accepted(c, data, w), Message(data, direct, Fault(c, w));
      var d := c.(log := c.log.(kernel := c.log.kernel + data[..n], sent := c.log.sent + [m]));
      DeliveredSnoc(c.log.sent, m);
      assert Quiet(d);
      assert n > 0 || Fault(c, w) ==> c.log.kernel + c.output == c.log.kernel;
      assert data == data[..n] + data[n..];
      Assoc(c.log.kernel, data[..n], data[n..]);
      if Fault(c, w) {
        assert d.log.kernel + d.output == c.log.kernel && Delivered(c.log.sent) + [] == Delivered(c.log.sent);
      } else {
        assert n == 0 ==> d.log.kernel == c.log.kernel && data[n..] == data;
        assert d.log.kernel + d.output + data[n..] == c.log.kernel + c.output + data;
        KeepInv(d, data[n..]);
      }
    }
  }

  lemma HandleWriteInv(c: Conn, w: WriteResult)
    requires ConnInv(c)
    ensures ConnInv(DoHandleWrite(c, w).conn)
  {
    if c.channel.writing && w.Wrote? && w.n > 0 {
      var n := Min(w.n, |c.output|);
      assert c.output == c.output[..n] + c.output[n..];
      assert c.log.kernel + (c.output[..n] + c.output[n..]) == c.log.kernel + c.output[..n] + c.output[n..];
    }
  }

  lemma ShutdownInLoopInv(c: Conn)
    requires ConnInv(c)
    ensures ConnInv(DoShutdownInLoop(c))
  {
    assert c.output == [] ==> c.log.kernel + c.output == c.log.kernel;
  }

  /** A second close needs a restart, and epoll to know the channel again. */
  lemma CloseInv(c: Conn)
    requires ConnInv(c) && (c.state in {Connected, Disconnecting} || c.log.restarted) && (c.log.removed ==> c.log.revived)
    ensures ConnInv(DoHandleClose(c))
  {
  }

  lemma StartReadInv(c: Conn)
    requires ConnInv(c) && c.state != Connecting
    ensures ConnInv(DoStartReadInLoop(c))
  {
  }

  lemma StopReadInv(c: Conn)
    requires ConnInv(c) && c.state != Connecting
    ensures ConnInv(DoStopReadInLoop(c))
  {
  }

  lemma EstablishedInv(c: Conn)
    requires ConnInv(c) && c.state == Connecting
    ensures ConnInv(DoConnectEstablished(c))
  {
  }

  lemma DestroyedInv(c: Conn)
    requires ConnInv(c) && (c.state == Connected || c.state == Disconnected) && (c.log.removed ==> c.log.restarted)
    ensures ConnInv(DoConnectDestroyed(c))
  {
  }

  lemma DisconnectingInv(c: Conn)
    requires ConnInv(c) && (c.state == Connected || c.state == Disconnecting)
    ensures ConnInv(c.(state := Disconnecting))
  {
  }

  /** A functor keeps the invariant and never takes the state back. */
  lemma RunFunctorInv(c: Conn, f: Functor, w: WriteResult)
    requires ConnInv(c) && (f == ConnectEstablished <==> c.state == Connecting)
    requires f == ConnectDestroyed ==> c.state == Disconnected && (c.log.removed ==> c.log.restarted)
    ensures ConnInv(RunFunctor(c, f, w).conn)
    ensures Rank(c.state) <= Rank(RunFunctor(c, f, w).conn.state)
  {
    match f
    case ConnectEstablished => EstablishedInv(c);
    case SendInLoop(data) => SendInv(c, data, false, w);
    case ShutdownInLoop => ShutdownInLoopInv(c);
    case ForceCloseInLoop => if c.state in {Connected, Disconnecting} { CloseInv(c); }
    case StartReadInLoop => StartReadInv(c);
    case StopReadInLoop => StopReadInv(c);
    case WriteComplete =>
    case ConnectDestroyed => DestroyedInv(c);
  }

  lemma HandleReadInv(c: Conn, r: ReadResult)
    requires ConnInv(c) && c.state != Connecting && (c.log.removed ==> c.log.revived)
    requires r == Got([]) ==> c.state != Disconnected || c.log.restarted
    ensures ConnInv(DoHandleRead(c, r)) && Rank(c.state) <= Rank(DoHandleRead(c, r).state)
  {
    if r == Got([]) {
      CloseInv(c);
    }
  }

  lemma ShutdownInv(c: Conn, inLoop: bool, w: WriteResult)
    requires ConnInv(c)
    ensures ConnInv(DoShutdown(c, inLoop, w).conn)
  {
    if c.state == Connected {
      DisconnectingInv(c);
      ShutdownInLoopInv(c.(state := Disconnecting));
    }
  }

  lemma AcceptInv(c: Conn, data: string, inLoop: bool)
    requires ConnInv(c)
    ensures ConnInv(Accept(c, data, inLoop))
  {
  }

  lemma UserSendInv(c: Conn, data: string, inLoop: bool, w: WriteResult)
    requires ConnInv(c)
    ensures ConnInv(DoSend(c, data, inLoop, w).conn)
  {
    AcceptInv(c, data, inLoop);
    if c.state == Connected && inLoop {
      SendInv(Accept(c, data, true), data, true, w);
    }
  }

  lemma BufferSendInv(c: Conn, data: string, inLoop: bool, w: WriteResult)
    requires ConnInv(c)
    ensures ConnInv(DoSendBuffer(c, data, inLoop, w).conn)
  {
    if inLoop {
      UserSendInv(c, data, true, w);
    }
  }

  lemma UserCallInv(c: Conn, call: UserCall, inLoop: bool, w: WriteResult)
    requires ConnInv(c) && c.state != Connecting
    ensures ConnInv(DoUserCall(c, call, inLoop, w).conn)
  {
    match call
    case Send(data) => UserSendInv(c, data, inLoop, w);
    case SendBuffer(data) => BufferSendInv(c, data, inLoop, w);
    case Shutdown => ShutdownInv(c, inLoop, w);
    case StartRead => StartReadInv(c);
    case StopRead => StopReadInv(c);
    case _ => if c.state in {Connected, Disconnecting} { DisconnectingInv(c); }
  }

  lemma SendForward(c: Conn, data: string, inLoop: bool, w: WriteResult)
    ensures SameLife(c, DoSend(c, data, inLoop, w).conn) && SameLife(c, DoSendBuffer(c, data, inLoop, w).conn)
    ensures forall f :: f in DoSend(c, data, inLoop, w).queued ==> f.SendInLoop? || f.WriteComplete?
    ensures forall f :: f in DoSendBuffer(c, data, inLoop, w).queued ==> f.WriteComplete?
  {
  }

  /** No public call takes the state back or queues a functor of the server. */
  lemma UserCallForward(c: Conn, call: UserCall, inLoop: bool, w: WriteResult)
    requires c.state != Connecting
    ensures Rank(c.state) <= Rank(DoUserCall(c, call, inLoop, w).conn.state)
    ensures ConnectEstablished !in DoUserCall(c, call, inLoop, w).queued
    ensures ConnectDestroyed !in DoUserCall(c, call, inLoop, w).queued
  {
    if call.Send? || call.SendBuffer? {
      SendForward(c, call.data, inLoop, w);
    }
  }

  // ---------------------------------------------------------------------------
  // Accounting between send() and the socket

  /** What sendInLoop was given directly, or by functors, in order. */
  function TextOf(sent: seq<Message>, direct: bool): string
  {
    if sent == [] then [] else
    TextOf(sent[..|sent| - 1], direct) + if sent[|sent| - 1].direct == direct then sent[|sent| - 1].data else []
  }

  lemma TextSnoc(sent: seq<Message>, m: Message, direct: bool)
    ensures TextOf(sent + [m], direct) == TextOf(sent, direct) + if m.direct == direct then m.data else []
  {
    assert (sent + [m])[..|sent|] == sent;
  }

  function DroppedBytes(sent: seq<Message>): nat
  {
    if sent == [] then 0 else
    DroppedBytes(sent[..|sent| - 1]) + if sent[|sent| - 1].dropped then |sent[|sent| - 1].data| else 0
  }

  lemma {:induction false} DeliveredBytes(sent: seq<Message>)
    ensures |Delivered(sent)| + DroppedBytes(sent) == |TextOf(sent, true)| + |TextOf(sent, false)|
  {
    if sent != [] {
      DeliveredBytes(sent[..|sent| - 1]);
    }
  }

  function PayloadOf(f: Functor): string
  {
    if f.SendInLoop? then f.data else []
  }

  function Payload(fs: seq<Functor>): string
  {
    if fs == [] then [] else PayloadOf(fs[0]) + Payload(fs[1..])
  }

  /**
   * With q the text still queued: what send() accepted in the loop thread is what
   * sendInLoop was given directly; what it accepted in other threads is what
   * functors have given to sendInLoop, then what was given up, then q.
   */
  predicate Balanced(c: Conn, q: string)
  {
    && c.log.acceptedIn == TextOf(c.log.sent, true)
    && c.log.acceptedOff == TextOf(c.log.sent, false) + c.log.discarded + q
    && (c.state != Disconnected ==> c.log.discarded == [])
  }

  predicate SameAccounts(c: Conn, d: Conn)
  {
    && d.log.acceptedIn == c.log.acceptedIn && d.log.acceptedOff == c.log.acceptedOff && d.log.vanished == c.log.vanished
    && d.log.sent == c.log.sent && d.log.discarded == c.log.discarded && (c.state == Disconnected ==> d.state == Disconnected)
  }

  lemma SameBalance(c: Conn, d: Conn, q: string)
    requires Balanced(c, q) && SameAccounts(c, d)
    ensures Balanced(d, q)
  {
  }

  lemma SinglePayload(f: Functor)
    ensures Payload([f]) == PayloadOf(f)
  {
    assert Payload([f]) == PayloadOf(f) + Payload([]);
  }

  /** What sendInLoop does to the accounts. */
  lemma SendRecords(c: Conn, data: string, direct: bool, w: WriteResult)
    ensures var d := DoSendInLoop(c, data, direct, w).conn;
      && d.log.acceptedIn == c.log.acceptedIn && d.log.acceptedOff == c.log.acceptedOff
      && d.log.vanished == c.log.vanished && d.state == c.state
      && (if c.state == Disconnected then d.log.sent == c.log.sent && d.log.discarded == c.log.discarded + data
          else d.log.sent == c.log.sent + [Message(data, direct, Fault(c, w))] && d.log.discarded == c.log.discarded)
    ensures Payload(DoSendInLoop(c, data, direct, w).queued) == []
  {
    SinglePayload(WriteComplete);
  }

  /** A functor that carries data hands exactly that data over. */
  lemma {:induction false} QueuedSendBalance(c: Conn, data: string, q: string, w: WriteResult)
    requires Balanced(c, data + q)
    ensures Balanced(DoSendInLoop(c, data, false, w).conn, q)
  {
    var off, m := TextOf(c.log.sent, false), Message(data, false, Fault(c, w));
    SendRecords(c, data, false, w);
    TextSnoc(c.log.sent, m, true);
    TextSnoc(c.log.sent, m, false);
    assert TextOf(c.log.sent, true) + [] == TextOf(c.log.sent, true);
    Assoc(off + c.log.discarded, data, q);
    Assoc(off, c.log.discarded, data);
    assert off + [] == off && off + data + [] == off + data;
  }

  lemma DirectSendBalance(c: Conn, data: string, q: string, w: WriteResult)
    requires Balanced(c, q) && c.state != Disconnected
    ensures Balanced(DoSendInLoop(Accept(c, data, true), data, true, w).conn, q)
  {
    var a := Accept(c, data, true);
    SendRecords(a, data, true, w);
    TextSnoc(c.log.sent, Message(data, true, Fault(a, w)), true);
    TextSnoc(c.log.sent, Message(data, true, Fault(a, w)), false);
    assert TextOf(c.log.sent, false) + [] == TextOf(c.log.sent, false);
  }

  /** Every text that send() accepts is handed over at once, or is the payload just queued. */
  lemma {:induction false} UserSendBalance(c: Conn, data: string, inLoop: bool, q: string, w: WriteResult)
    requires Balanced(c, q)
    ensures var o := DoSend(c, data, inLoop, w); Balanced(o.conn, q + Payload(o.queued))
  {
    assert q + [] == q;
    if c.state == Connected && inLoop {
      DirectSendBalance(c, data, q, w);
      SendRecords(Accept(c, data, true), data, true, w);
    } else {
      SinglePayload(SendInLoop(data));
      Assoc(TextOf(c.log.sent, false) + c.log.discarded, q, data);
    }
  }

  lemma {:induction false} BufferSendBalance(c: Conn, data: string, inLoop: bool, q: string, w: WriteResult)
    requires Balanced(c, q)
    ensures var o := DoSendBuffer(c, data, inLoop, w); Balanced(o.conn, q + Payload(o.queued))
  {
    if inLoop {
      UserSendBalance(c, data, true, q, w);
    } else {
      assert q + [] == q;
    }
  }

  /** With q still queued, every byte that send() accepted is in the history of sendInLoop, given up, or in q. */
  predicate Accounted(c: Conn, q: string)
  {
    AcceptedBytes(c.log) == |TextOf(c.log.sent, true)| + |TextOf(c.log.sent, false)| + |c.log.discarded| + |q|
  }

  /**
   * send(Buffer*) keeps every byte accounted for, and does what send() does,
   * exactly when it is not a send from another thread.
   */
  lemma {:induction false} BufferSendKeptIff(c: Conn, data: string, inLoop: bool, q: string, w: WriteResult)
    requires Balanced(c, q) && Accounted(c, q)
    ensures var o := DoSendBuffer(c, data, inLoop, w);
      && (Accounted(o.conn, q + Payload(o.queued)) <==> inLoop || c.state != Connected || data == [])
      && (o == DoSend(c, data, inLoop, w) <==> inLoop || c.state != Connected)
  {
    var o := DoSendBuffer(c, data, inLoop, w);
    BufferSendBalance(c, data, inLoop, q, w);
    BalancedBytes(c, q);
    BalancedBytes(o.conn, q + Payload(o.queued));
    if inLoop && c.state == Connected {
      SendRecords(Accept(c, data, true), data, true, w);
    }
  }

  /** The bytes not accounted for are those that vanished. */
  lemma BalancedBytes(c: Conn, q: string)
    requires Balanced(c, q)
    ensures AcceptedBytes(c.log) ==
      |TextOf(c.log.sent, true)| + |TextOf(c.log.sent, false)| + |c.log.discarded| + |q| + |c.log.vanished|
  {
  }

  lemma FunctorBalance(c: Conn, f: Functor, q: string, w: WriteResult)
    requires Balanced(c, PayloadOf(f) + q) && (f == ConnectEstablished ==> c.state == Connecting)
    ensures Balanced(RunFunctor(c, f, w).conn, q) && Payload(RunFunctor(c, f, w).queued) == []
  {
    if f.SendInLoop? {
      QueuedSendBalance(c, f.data, q, w);
      SendRecords(c, f.data, false, w);
    } else {
      assert [] + q == q;
      SameBalance(c, RunFunctor(c, f, w).conn, q);
    }
  }

  lemma UserCallBalance(c: Conn, call: UserCall, inLoop: bool, q: string, w: WriteResult)
    requires Balanced(c, q)
    ensures var o := DoUserCall(c, call, inLoop, w); Balanced(o.conn, q + Payload(o.queued))
  {
    match call
    case Send(data) => UserSendBalance(c, data, inLoop, q, w);
    case SendBuffer(data) => BufferSendBalance(c, data, inLoop, q, w);
    case _ => ControlBalance(c, call, inLoop, q, w);
  }

  lemma ControlBalance(c: Conn, call: UserCall, inLoop: bool, q: string, w: WriteResult)
    requires Balanced(c, q) && !call.Send? && !call.SendBuffer?
    ensures var o := DoUserCall(c, call, inLoop, w); Balanced(o.conn, q + Payload(o.queued))
  {
    var o := DoUserCall(c, call, inLoop, w);
    SinglePayload(ShutdownInLoop);
    SinglePayload(ForceCloseInLoop);
    SinglePayload(StartReadInLoop);
    SinglePayload(StopReadInLoop);
    assert Payload(o.queued) == [] && q + [] == q;
    SameBalance(c, o.conn, q);
  }

  lemma ReadBalance(c: Conn, q: string, r: ReadResult)
    requires Balanced(c, q)
    ensures Balanced(DoHandleRead(c, r), q)
  {
    SameBalance(c, DoHandleRead(c, r), q);
  }

  lemma WriteBalance(c: Conn, q: string, w: WriteResult)
    requires Balanced(c, q)
    ensures Balanced(DoHandleWrite(c, w).conn, q) && Payload(DoHandleWrite(c, w).queued) == []
  {
    SinglePayload(WriteComplete);
    SameBalance(c, DoHandleWrite(c, w).conn, q);
  }

  /**
   * At a shutdownWrite before the close, the bytes that send() accepted are in the
   * kernel, dropped on a fault, queued, or thrown away.
   */
  lemma ShutCompleteIff(c: Conn, q: string)
    requires Balanced(c, q) && c.state != Disconnected && c.log.kernel == Delivered(c.log.sent)
    ensures ShutNow(c).accepted == |c.log.kernel| + DroppedBytes(c.log.sent) + |q| + |c.log.vanished|
  {
    DeliveredBytes(c.log.sent);
    BalancedBytes(c, q);
  }

  /** A step adds a shutdown only as the last thing it records. */
  predicate ShutsNow(c: Conn, d: Conn)
  {
    d.log.shutdowns == c.log.shutdowns || d.log.shutdowns == c.log.shutdowns + [ShutNow(d)]
  }

  lemma SendShuts(c: Conn, data: string, inLoop: bool, w: WriteResult)
    ensures DoSend(c, data, inLoop, w).conn.log.shutdowns == c.log.shutdowns
    ensures DoSendBuffer(c, data, inLoop, w).conn.log.shutdowns == c.log.shutdowns
  {
  }

  lemma UserCallShuts(c: Conn, call: UserCall, inLoop: bool, w: WriteResult)
    ensures ShutsNow(c, DoUserCall(c, call, inLoop, w).conn)
  {
    if call.Send? || call.SendBuffer? {
      SendShuts(c, call.data, inLoop, w);
    }
  }

  lemma FunctorShuts(c: Conn, f: Functor, w: WriteResult)
    ensures ShutsNow(c, RunFunctor(c, f, w).conn)
  {
  }

  lemma HandleShuts(c: Conn, r: ReadResult, w: WriteResult)
    ensures ShutsNow(c, DoHandleRead(c, r)) && ShutsNow(c, DoHandleWrite(c, w).conn)
  {
  }

  // ---------------------------------------------------------------------------
  // What each action means for the life of the connection

  predicate SameLife(c: Conn, d: Conn)
  {
    d.state == c.state && d.log.closes == c.log.closes && d.log.removed == c.log.removed
  }

  predicate Closes(c: Conn, d: Conn)
  {
    d.state == Disconnected && d.log.closes == c.log.closes + 1 && d.log.removed == c.log.removed
  }

  lemma FunctorLife(c: Conn, f: Functor, w: WriteResult)
    requires f != ConnectEstablished && f != ConnectDestroyed
    ensures ConnectEstablished !in RunFunctor(c, f, w).queued && ConnectDestroyed !in RunFunctor(c, f, w).queued
    ensures if f == ForceCloseInLoop && c.state in {Connected, Disconnecting}
      then Closes(c, RunFunctor(c, f, w).conn) && RunFunctor(c, f, w).queued == []
      else SameLife(c, RunFunctor(c, f, w).conn)
  {
  }

  lemma UserCallLife(c: Conn, call: UserCall, inLoop: bool, w: WriteResult)
    ensures var d := DoUserCall(c, call, inLoop, w).conn;
      && d.log.closes == c.log.closes && d.log.removed == c.log.removed
      && (d.state == c.state || (c.state == Connected && d.state == Disconnecting))
  {
    if call.Send? || call.SendBuffer? {
      SendForward(c, call.data, inLoop, w);
    }
  }

  lemma HandleLife(c: Conn, r: ReadResult, w: WriteResult)
    ensures if r == Got([]) then Closes(c, DoHandleRead(c, r)) else SameLife(c, DoHandleRead(c, r))
    ensures SameLife(c, DoHandleWrite(c, w).conn)
    ensures forall f :: f in DoHandleWrite(c, w).queued ==> f == WriteComplete
  {
  }

  /** Only startReadInLoop after the close makes a connection restarted, and it stays so. */
  predicate Restarts(c: Conn, d: Conn)
  {
    c.log.restarted || (c.state == Disconnected && d.state == Disconnected && d.log.closes == c.log.closes)
  }

  lemma FunctorRestarts(c: Conn, f: Functor, w: WriteResult)
    ensures c.log.restarted ==> RunFunctor(c, f, w).conn.log.restarted
    ensures RunFunctor(c, f, w).conn.log.restarted ==> Restarts(c, RunFunctor(c, f, w).conn)
    ensures c.log.revived ==> RunFunctor(c, f, w).conn.log.revived
  {
  }

  lemma SendRestarts(c: Conn, data: string, inLoop: bool, w: WriteResult)
    ensures DoSend(c, data, inLoop, w).conn.log.restarted == c.log.restarted
    ensures DoSend(c, data, inLoop, w).conn.log.revived == c.log.revived
    ensures DoSendBuffer(c, data, inLoop, w).conn.log.restarted == c.log.restarted
    ensures DoSendBuffer(c, data, inLoop, w).conn.log.revived == c.log.revived
  {
  }

  lemma UserCallRestarts(c: Conn, call: UserCall, inLoop: bool, w: WriteResult)
    ensures c.log.restarted ==> DoUserCall(c, call, inLoop, w).conn.log.restarted
    ensures DoUserCall(c, call, inLoop, w).conn.log.restarted ==> Restarts(c, DoUserCall(c, call, inLoop, w).conn)
    ensures c.log.revived ==> DoUserCall(c, call, inLoop, w).conn.log.revived
  {
    if call.Send? || call.SendBuffer? {
      SendRestarts(c, call.data, inLoop, w);
    }
  }

  lemma HandleRestarts(c: Conn, r: ReadResult, w: WriteResult)
    ensures DoHandleRead(c, r).log.restarted == c.log.restarted && DoHandleRead(c, r).log.revived == c.log.revived
    ensures DoHandleWrite(c, w).conn.log.restarted == c.log.restarted && DoHandleWrite(c, w).conn.log.revived == c.log.revived
  {
  }

  /** What a removed or registered connection stays. */
  predicate Listens(c: Conn, d: Conn)
  {
    d.log.removed == c.log.removed && (c.log.revived ==> d.log.revived) && (c.channel.index != New ==> d.channel.index != New)
  }

  lemma SendListens(c: Conn, data: string, inLoop: bool, w: WriteResult)
    ensures Listens(c, DoSend(c, data, inLoop, w).conn) && Listens(c, DoSendBuffer(c, data, inLoop, w).conn)
  {
  }

  lemma UserCallListens(c: Conn, call: UserCall, inLoop: bool, w: WriteResult)
    ensures Listens(c, DoUserCall(c, call, inLoop, w).conn)
  {
    if call.Send? || call.SendBuffer? {
      SendListens(c, call.data, inLoop, w);
    }
  }

  lemma HandleListens(c: Conn, r: ReadResult, w: WriteResult)
    ensures Listens(c, DoHandleRead(c, r)) && Listens(c, DoHandleWrite(c, w).conn)
  {
  }

  // ---------------------------------------------------------------------------
  // Consequences

  /** Only a broken connection loses a message, and only one written directly, as a whole. */
  lemma DroppedOnlyOnFault(c: Conn, data: string, direct: bool, w: WriteResult)
    requires ConnInv(c) && c.state != Disconnected
    ensures var d := DoSendInLoop(c, data, direct, w).conn;
      && |d.log.sent| == |c.log.sent| + 1 && d.log.sent[..|c.log.sent|] == c.log.sent && d.log.sent[|c.log.sent|].data == data
      && (d.log.sent[|c.log.sent|].dropped <==>
            c.output == [] && w.WriteFailed? && (w.errno == Pipe || w.errno == ConnReset))
  {
  }

  /** Writing the last byte while disconnecting shuts the write side down, with everything delivered. */
  lemma DrainingShutsDown(c: Conn, w: WriteResult)
    requires ConnInv(c) && c.state == Disconnecting && c.channel.writing
    ensures var d := DoHandleWrite(c, w).conn;
      if w.Wrote? && w.n >= |c.output| then
        d.log.shutdowns == c.log.shutdowns + [ShutNow(d)] && d.state == Disconnecting && d.log.kernel == Delivered(d.log.sent)
      else
        d.log.shutdowns == c.log.shutdowns && d.channel.writing
  {
    HandleWriteInv(c, w);
    var d := DoHandleWrite(c, w).conn;
    assert d.output == [] ==> d.log.kernel + d.output == d.log.kernel;
  }

  /**
   * startReadInLoop does not look at the state. On a closed connection it always
   * makes the channel wait for input again, and the end of file that is still
   * there then fires the close callback a second time.
   */
  lemma StartReadAfterCloseClosesTwice(c: Conn)
    requires ConnInv(c) && c.state == Disconnected && !c.log.restarted
    ensures var d := DoStartReadInLoop(c);
      && d.channel.reading && d.channel.index == Added && d.log.restarted
      && DoHandleRead(d, Got([])).log.closes == c.log.closes + 1
  {
  }

  /**
   * Neither does stopReadInLoop. After the removal its first effect is to add the
   * channel to the epoll set again, and it has that effect exactly when reading_
   * is still set.
   */
  lemma StopReadRevivesIff(c: Conn)
    requires ConnInv(c) && c.log.removed && !c.log.restarted && !c.log.revived
    ensures var d := DoStopReadInLoop(c);
      && (d.channel.index == Added <==> c.reading) && (d.channel.index == New <==> !c.reading)
      && d.log.revived == c.reading && d.channel.None()
  {
  }
}

/** The class TcpConnection over its Channel, its poller and its two Buffers. */
module TcpConnections {
  import opened Seqs
  import opened Pollers
  import opened Buffers
  import opened Connections

  class TcpConnection {
    const channel: Channel
    const poller: EpollPoller
    const inputBuffer: Buffer
    const outputBuffer: Buffer
    const name: string
    const notify: bool
    var state: StateE
    var reading: bool
    // What was given to loop_->queueInLoop, in order.
    var queued: seq<Functor>

    ghost var log: Log

    ghost predicate Valid()
      reads this, channel, poller, poller.universe, inputBuffer, outputBuffer
    {
      && poller.Valid() && channel in poller.universe
      && inputBuffer.Valid() && outputBuffer.Valid()
      && inputBuffer != outputBuffer && inputBuffer.buffer != outputBuffer.buffer
    }

    ghost function View(): Conn
      reads this, channel, poller, poller.universe, inputBuffer, outputBuffer, inputBuffer.buffer, outputBuffer.buffer
      requires Valid()
    {
      Conn(state, reading, channel.View(), inputBuffer.Contents(), outputBuffer.Contents(), notify, log)
    }

    constructor (name: string, channel: Channel, poller: EpollPoller, notify: bool)
      requires poller.Valid() && channel in poller.universe && channel.View() == Interest(false, false, New)
      ensures Valid() && View() == NewConn(notify) && queued == []
      ensures this.name == name && this.channel == channel && this.poller == poller
    {
      var input := new Buffer(kInitialSize);
      var output := new Buffer(kInitialSize);
      this.name, this.channel, this.poller, this.notify := name, channel, poller, notify;
      inputBuffer, outputBuffer := input, output;
      state, reading, queued := Connecting, true, [];
      log := EmptyLog;
    }

    /** The tail of sendInLoop: what was not written is kept, and the channel waits for writability. */
    method KeepRest(rest: string)
      requires Valid()
      modifies channel, poller`channels, poller`kernel, poller`fatal, outputBuffer, outputBuffer.buffer
      ensures Valid() && (outputBuffer.buffer == old(outputBuffer.buffer) || fresh(outputBuffer.buffer))
      ensures View() == Keep(old(View()), rest)
    {
      if |rest| > 0 {
        outputBuffer.Append(rest);
        if !channel.IsWriting() {
          channel.EnableWriting(poller);
        }
      }
    }

    /** The direct write of sendInLoop. */
    method WriteNow(data: string, w: WriteResult) returns (nwrote: nat, faultError: bool)
      requires Valid()
      modifies `log, `queued
      ensures Valid() && nwrote == (if w.Wrote? then Min(w.n, |data|) else 0)
      ensures View() == old(View()).(log := old(log).(kernel := old(log).kernel + data[..nwrote]))
      ensures faultError <==> w.WriteFailed? && (w.errno == Pipe || w.errno == ConnReset)
      ensures queued == old(queued) + if w.Wrote? && nwrote == |data| then Completion(old(View())) else []
    {
      nwrote, faultError := 0, false;
      if w.Wrote? {
        nwrote := Min(w.n, |data|);
        if nwrote == |data| && notify {
          queued := queued + [Functor.WriteComplete];
        }
      } else {
        faultError := w.errno == Pipe || w.errno == ConnReset;
      }
      log := log.(kernel := log.kernel + data[..nwrote]);
    }

    ghost method NoteSent(m: Message)
      requires Valid()
      modifies `log
      ensures Valid() && View() == old(View()).(log := old(log).(sent := old(log).sent + [m]))
    {
      log := log.(sent := log.sent + [m]);
    }

    /** The first half of sendInLoop: the direct write, when nothing waits to be written. */
    method TryWrite(data: string, w: WriteResult) returns (nwrote: nat, faultError: bool)
      requires Valid()
      modifies `log, `queued
      ensures Valid() && nwrote == Accepted(old(View()), data, w) && faultError == Fault(old(View()), w)
      ensures View() == old(View()).(log := old(log).(kernel := old(log).kernel + data[..nwrote]))
      ensures queued == old(queued) +
        if Direct(old(View())) && w.Wrote? && nwrote == |data| then Completion(old(View())) else []
    {
      nwrote, faultError := 0, false;
      if !channel.IsWriting() && outputBuffer.ReadableBytes() == 0 {
        nwrote, faultError := WriteNow(data, w);
      } else {
        assert log.kernel + data[..0] == log.kernel;
      }
    }

    /** sendInLoop: writes directly if nothing waits, keeps the rest. */
    method SendInLoop(data: string, ghost direct: bool, w: WriteResult)
      requires Valid()
      modifies this, channel, poller`channels, poller`kernel, poller`fatal, outputBuffer, outputBuffer.buffer
      ensures Valid() && (outputBuffer.buffer == old(outputBuffer.buffer) || fresh(outputBuffer.buffer))
      ensures View() == DoSendInLoop(old(View()), data, direct, w).conn
      ensures queued == old(queued) + DoSendInLoop(old(View()), data, direct, w).queued
    {
      if state == Disconnected {
        log := log.(discarded := log.discarded + data);
        return;
      }
      var nwrote, faultError := TryWrite(data, w);
      NoteSent(Message(data, direct, faultError));
      if !faultError {
        KeepRest(data[nwrote..]);
      }
    }

    method ShutdownInLoop()
      requires Valid()
      modifies `log
      ensures Valid() && View() == DoShutdownInLoop(old(View()))
    {
      if !channel.IsWriting() {
        log := log.(shutdowns := log.shutdowns + [Shut(state, log.kernel, log.sent, AcceptedBytes(log))]);
      }
    }

    method AfterDrain()
      requires Valid()
      modifies this, channel, poller`channels, poller`kernel, poller`fatal
      ensures Valid() && View() == Drained(old(View())).conn
      ensures queued == old(queued) + Drained(old(View())).queued
    {
      channel.DisableWriting(poller);
      if notify {
        queued := queued + [Functor.WriteComplete];
      }
      if state == Disconnecting {
        ShutdownInLoop();
      }
    }

    method HandleWrite(w: WriteResult)
      requires Valid()
      modifies this, channel, poller`channels, poller`kernel, poller`fatal, outputBuffer
      ensures Valid()
      ensures View() == DoHandleWrite(old(View()), w).conn
      ensures queued == old(queued) + DoHandleWrite(old(View()), w).queued
    {
      if channel.IsWriting() && w.Wrote? && w.n > 0 {
        var n := Min(w.n, outputBuffer.ReadableBytes());
        log := log.(kernel := log.kernel + outputBuffer.Contents()[..n]);
        outputBuffer.Retrieve(n);
        if outputBuffer.ReadableBytes() == 0 {
          AfterDrain();
        }
      }
    }

    method HandleClose()
      requires Valid()
      modifies this, channel, poller`channels, poller`kernel, poller`fatal
      ensures Valid() && View() == DoHandleClose(old(View())) && queued == old(queued)
    {
      state := Disconnected;
      channel.DisableAll(poller);
      log := log.(closes := log.closes + 1);
    }

    method HandleRead(r: ReadResult)
      requires Valid() && (r.Got? ==> |r.bytes| <= inputBuffer.ReadCapacity())
      modifies this, channel, poller`channels, poller`kernel, poller`fatal, inputBuffer, inputBuffer.buffer
      ensures Valid() && (inputBuffer.buffer == old(inputBuffer.buffer) || fresh(inputBuffer.buffer))
      ensures View() == DoHandleRead(old(View()), r) && queued == old(queued)
    {
      var n, savedErrno := inputBuffer.ReadFd(r);
      if n == 0 {
        HandleClose();
      }
    }

    method ForceCloseInLoop()
      requires Valid()
      modifies this, channel, poller`channels, poller`kernel, poller`fatal
      ensures Valid() && View() == DoForceCloseInLoop(old(View())) && queued == old(queued)
    {
      if state == Connected || state == Disconnecting {
        HandleClose();
      }
    }

    method StartReadInLoop()
      requires Valid()
      modifies this, channel, poller`channels, poller`kernel, poller`fatal
      ensures Valid() && View() == DoStartReadInLoop(old(View())) && queued == old(queued)
    {
      if !reading || !channel.IsReading() {
        channel.EnableReading(poller);
        reading := true;
        log := log.(restarted := log.restarted || state == Disconnected, revived := log.revived || log.removed);
      }
    }

    method StopReadInLoop()
      requires Valid()
      modifies this, channel, poller`channels, poller`kernel, poller`fatal
      ensures Valid() && View() == DoStopReadInLoop(old(View())) && queued == old(queued)
    {
      if reading || channel.IsReading() {
        channel.DisableReading(poller);
        reading := false;
        log := log.(revived := log.revived || log.removed);
      }
    }

    method ConnectEstablished()
      requires Valid()
      modifies this, channel, poller`channels, poller`kernel, poller`fatal
      ensures Valid() && View() == DoConnectEstablished(old(View())) && queued == old(queued)
    {
      state := Connected;
      channel.EnableReading(poller);
    }

    method ConnectDestroyed()
      requires Valid()
      modifies this, channel, poller`channels, poller`kernel, poller`fatal
      ensures Valid() && View() == DoConnectDestroyed(old(View())) && queued == old(queued)
    {
      if state == Connected {
        state := Disconnected;
        channel.DisableAll(poller);
      }
      channel.Remove(poller);
      log := log.(removed := true);
    }

    ghost method NoteAccepted(data: string, inLoop: bool)
      requires Valid()
      modifies `log
      ensures Valid() && View() == Accept(old(View()), data, inLoop)
    {
      log := if inLoop then log.(acceptedIn := log.acceptedIn + data) else log.(acceptedOff := log.acceptedOff + data);
    }

    method Send(data: string, inLoopThread: bool, w: WriteResult)
      requires Valid()
      modifies this, channel, poller`channels, poller`kernel, poller`fatal, outputBuffer, outputBuffer.buffer
      ensures Valid()
      ensures View() == DoSend(old(View()), data, inLoopThread, w).conn
      ensures queued == old(queued) + DoSend(old(View()), data, inLoopThread, w).queued
    {
      if state == Connected {
        NoteAccepted(data, inLoopThread);
        if inLoopThread {
          SendInLoop(data, true, w);
        } else {
          queued := queued + [Functor.SendInLoop(data)];
        }
      }
    }

    /** retrieveAll, or retrieveAllAsString with the result thrown away. */
    method Drain(buf: Buffer)
      requires Valid() && buf.Valid() && buf != outputBuffer && buf.buffer != outputBuffer.buffer
      requires buf == inputBuffer || buf.buffer != inputBuffer.buffer
      modifies buf`readerIndex, buf`writerIndex
      ensures Valid() && buf.Valid() && buf.Contents() == []
      ensures View() == old(View()).(input := inputBuffer.Contents())
      ensures buf != inputBuffer ==> inputBuffer.Contents() == old(inputBuffer.Contents())
    {
      buf.RetrieveAll();
    }

    /** send(Buffer*) as it stands. The buffer may be the connection's own input buffer, as in an echo. */
    method SendBuffer(buf: Buffer, inLoopThread: bool, w: WriteResult)
      requires Valid() && buf.Valid() && buf != outputBuffer && buf.buffer != outputBuffer.buffer
      requires buf == inputBuffer || buf.buffer != inputBuffer.buffer
      modifies this, channel, poller`channels, poller`kernel, poller`fatal, outputBuffer, outputBuffer.buffer
      modifies buf`readerIndex, buf`writerIndex
      ensures Valid() && buf.Valid()
      ensures buf.Contents() == if old(state) == Connected then [] else old(buf.Contents())
      ensures View() == DoSendBuffer(old(View()), old(buf.Contents()), inLoopThread, w).conn.(input := inputBuffer.Contents())
      ensures buf != inputBuffer ==> inputBuffer.Contents() == old(inputBuffer.Contents())
      ensures queued == old(queued) + DoSendBuffer(old(View()), old(buf.Contents()), inLoopThread, w).queued
    {
      if state == Connected {
        SendOrDiscard(buf.buffer[buf.readerIndex..buf.writerIndex], inLoopThread, w);
        Drain(buf);
      }
    }

    ghost method NoteVanished(data: string)
      requires Valid()
      modifies `log
      ensures Valid() && View() == Vanish(old(View()), data)
    {
      log := log.(vanished := log.vanished + data);
    }

    /** What send(Buffer*) does with the bytes. */
    method SendOrDiscard(data: string, inLoopThread: bool, w: WriteResult)
      requires Valid() && state == Connected
      modifies this, channel, poller`channels, poller`kernel, poller`fatal, outputBuffer, outputBuffer.buffer
      ensures Valid() && (outputBuffer.buffer == old(outputBuffer.buffer) || fresh(outputBuffer.buffer))
      ensures View() == DoSendBuffer(old(View()), data, inLoopThread, w).conn
      ensures queued == old(queued) + DoSendBuffer(old(View()), data, inLoopThread, w).queued
    {
      if inLoopThread {
        NoteAccepted(data, true);
        SendInLoop(data, true, w);
      } else {
        NoteVanished(data);
      }
    }

    method Shutdown(inLoopThread: bool, w: WriteResult)
      requires Valid()
      modifies `state, `log, `queued
      ensures Valid()
      ensures View() == DoUserCall(old(View()), UserCall.Shutdown, inLoopThread, w).conn
      ensures queued == old(queued) + DoUserCall(old(View()), UserCall.Shutdown, inLoopThread, w).queued
    {
      if state == Connected {
        state := Disconnecting;
        if inLoopThread {
          ShutdownInLoop();
        } else {
          queued := queued + [Functor.ShutdownInLoop];
        }
      }
    }

    method ForceClose(ghost inLoop: bool, ghost w: WriteResult)
      requires Valid()
      modifies `state, `queued
      ensures Valid()
      ensures View() == DoUserCall(old(View()), UserCall.ForceClose, inLoop, w).conn
      ensures queued == old(queued) + DoUserCall(old(View()), UserCall.ForceClose, inLoop, w).queued
    {
      if state == Connected || state == Disconnecting {
        state := Disconnecting;
        queued := queued + [Functor.ForceCloseInLoop];
      }
    }
  }
}
