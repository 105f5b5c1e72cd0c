/** The server's side of one connection as objects, and the read loop that drives them. */
module HttpSessions {
  import opened Text
  import opened Buffers
  import opened HttpRequests
  import opened HttpParsers
  import opened RequestRoundTrips
  import opened HttpResponses
  import opened TcpConnections
  import opened HttpServers
  import Pollers

  class HttpSession {
    const conn: TcpConnection
    const parser: HttpParser
    var crashed: bool
    ghost var received: string
    ghost var served: seq<Request>
    ghost var rejected: bool

    ghost predicate Valid()
      reads this, conn, conn.inputBuffer, conn.outputBuffer, conn.poller, conn.poller.world
    {
      conn.Valid()
    }

    ghost function Abs(): Session
      requires Valid()
      reads this, parser, conn, conn.socket, conn.inputBuffer, conn.inputBuffer.data
      reads conn.outputBuffer, conn.outputBuffer.data, conn.poller, conn.poller.world
    {
      Session(conn.Abs(), parser.Abs(), crashed, received, served, rejected)
    }

    /** `onConnection`: a fresh context for an established connection. */
    constructor (conn: TcpConnection)
      requires conn.Valid() && conn.Abs() == ConnectEstablished(NewConn(conn.config))
      ensures Valid() && Abs() == Accepted(conn.config) && fresh(parser) && this.conn == conn
    {
      this.conn := conn;
      parser := new HttpParser();
      crashed, received, served, rejected := false, "", [], false;
    }

    /** Print the reply into a scratch buffer, send it, and shut down after a closing one. */
    method SendReply(reply: Response, w: WriteResult)
      requires Valid() && CanAnswer(w, PrintResponse(reply))
      modifies conn, conn.socket, conn.outputBuffer, conn.outputBuffer.data, conn.channel
      modifies conn.poller`channels, conn.poller`kernel
      ensures Valid() && conn.Abs() == Answer(old(conn.Abs()), reply, w)
      ensures conn.outputBuffer.data == old(conn.outputBuffer.data) || fresh(conn.outputBuffer.data)
    {
      hide PrintResponse, Send, Shutdown;
      var buf := new Buffer();
      AppendToBuffer(reply, buf);
      assert buf.Contents() == PrintResponse(reply);
      conn.SendBuffer(buf, w);
      if reply.close {
        conn.CloseWrite();
      }
    }

    /** The parser takes what it can from the input buffer; nothing else of the connection changes. */
    method ParseInput() returns (outcome: Outcome)
      requires Valid() && parser.state != GotAll
      modifies parser, conn.inputBuffer`reader, conn.inputBuffer`writer
      ensures Valid()
      ensures var r := Advance(old(parser.Abs()), old(conn.inputBuffer.Contents()));
              && outcome == r.outcome && parser.Abs() == r.parser
              && conn.Abs() == old(conn.Abs()).(input := r.rest)
              && (outcome == Complete <==> parser.state == GotAll)
    {
      hide Advance;
      ghost var p, input := parser.Abs(), conn.inputBuffer.Contents();
      Progress(p, input);
      var result := parser.ParseRequest(conn.inputBuffer);
      outcome := OutcomeOf(result, parser.state);
    }

    /** The refused request line: one 400. */
    method Refuse(w: WriteResult)
      requires Valid() && CanAnswer(w, PrintResponse(BAD_REQUEST))
      modifies this, conn, conn.socket, conn.outputBuffer, conn.outputBuffer.data, conn.channel
      modifies conn.poller`channels, conn.poller`kernel
      ensures Valid() && Abs() == old(Abs()).(conn := Answer(old(conn.Abs()), BAD_REQUEST, w), rejected := true)
      ensures conn.outputBuffer.data == old(conn.outputBuffer.data) || fresh(conn.outputBuffer.data)
    {
      hide PrintResponse, Answer, Pollers.EPollPoller.OnlyKnown, Pollers.EPollPoller.Agrees;
      SendReply(BAD_REQUEST, w);
      rejected := true;
    }

    /** The complete request goes to the callback, its reply out, and the parser is reset. */
    method AnswerRequest(handler: Handler, w: WriteResult)
      requires Valid() && CanAnswer(w, PrintResponse(handler(parser.request)))
      modifies this, parser, conn, conn.socket, conn.outputBuffer, conn.outputBuffer.data, conn.channel
      modifies conn.poller`channels, conn.poller`kernel
      ensures Valid()
      ensures Abs() == old(Abs()).(conn := Answer(old(conn.Abs()), handler(old(parser.request)), w),
                                   parser := FRESH, served := old(served) + [old(parser.request)])
      ensures conn.outputBuffer.data == old(conn.outputBuffer.data) || fresh(conn.outputBuffer.data)
    {
      hide PrintResponse, Answer, Pollers.EPollPoller.OnlyKnown, Pollers.EPollPoller.Agrees;
      var request := parser.request;
      SendReply(handler(request), w);
      served := served + [request];
      parser.Reset();
    }

    /** `onMessage`. It is never entered with the parser in `GotAll`, and never leaves it there. */
    method HandleMessage(handler: Handler, w: WriteResult)
      requires Valid() && !crashed && parser.state != GotAll && PossibleWrite(Abs(), handler, w)
      modifies this, parser, conn, conn.inputBuffer`reader, conn.inputBuffer`writer
      modifies conn.socket, conn.outputBuffer, conn.outputBuffer.data, conn.channel
      modifies conn.poller`channels, conn.poller`kernel
      ensures Valid() && Abs() == OnMessage(old(Abs()), handler, w)
      ensures !crashed ==> parser.state != GotAll
      ensures conn.outputBuffer.data == old(conn.outputBuffer.data) || fresh(conn.outputBuffer.data)
    {
      hide Advance, PrintResponse, Answer, Pollers.EPollPoller.OnlyKnown, Pollers.EPollPoller.Agrees;
      var outcome := ParseInput();
      match outcome {
        case Thrown =>
          crashed := true;
        case NeedMore =>
        case Rejected =>
          Refuse(w);
        case Complete =>
          AnswerRequest(handler, w);
      }
    }

    /** `handleRead` with bytes to read, and `onMessage` behind it. */
    method OnReadEvent(bytes: string, handler: Handler, w: WriteResult)
      requires Valid() && Possible(Abs(), handler, Receive(bytes, w))
      requires |bytes| <= conn.inputBuffer.ReadCapacity()
      modifies this, parser, conn, conn.inputBuffer, conn.inputBuffer.data
      modifies conn.socket, conn.outputBuffer, conn.outputBuffer.data, conn.channel
      modifies conn.poller`channels, conn.poller`kernel
      ensures Valid() && Abs() == Step(old(Abs()), handler, Receive(bytes, w))
      ensures conn.inputBuffer.data == old(conn.inputBuffer.data) || fresh(conn.inputBuffer.data)
      ensures conn.outputBuffer.data == old(conn.outputBuffer.data) || fresh(conn.outputBuffer.data)
    {
      hide OnMessage, PossibleWrite, Pollers.EPollPoller.OnlyKnown, Pollers.EPollPoller.Agrees;
      var n := conn.OnReadable(Data(bytes));
      received := received + bytes;
      HandleMessage(handler, w);
    }

    method OnWriteEvent(handler: Handler, w: WriteResult)
      requires Valid() && Possible(Abs(), handler, Writable(w))
      modifies conn, conn.socket, conn.outputBuffer, conn.channel, conn.poller`channels, conn.poller`kernel
      ensures Valid() && Abs() == Step(old(Abs()), handler, Writable(w))
      ensures conn.outputBuffer.data == old(conn.outputBuffer.data)
    {
      hide HandleWrite, Pollers.EPollPoller.OnlyKnown, Pollers.EPollPoller.Agrees;
      conn.OnWritable(w);
    }

    /** `handleRead` at the end of the stream or with an error. */
    method OnNoData(handler: Handler, e: Event)
      requires Valid() && Possible(Abs(), handler, e) && (e.PeerClosed? || e.ReadFailed?)
      modifies conn, conn.inputBuffer, conn.inputBuffer.data, conn.channel, conn.poller`channels, conn.poller`kernel
      ensures Valid() && Abs() == Step(old(Abs()), handler, e)
      ensures conn.inputBuffer.data == old(conn.inputBuffer.data) || fresh(conn.inputBuffer.data)
    {
      hide HandleRead, Pollers.EPollPoller.OnlyKnown, Pollers.EPollPoller.Agrees;
      var n := conn.OnReadable(if e.PeerClosed? then Data("") else ReadError);
    }

    method OnDestroyed(handler: Handler)
      requires Valid() && Possible(Abs(), handler, Destroyed)
      modifies conn, conn.channel, conn.poller`channels, conn.poller`kernel
      ensures Valid() && Abs() == Step(old(Abs()), handler, Destroyed)
    {
      hide ConnectDestroyed, Pollers.EPollPoller.OnlyKnown, Pollers.EPollPoller.Agrees;
      conn.Destroy();
    }

    /** Any event of the connection. */
    method OnEvent(handler: Handler, e: Event)
      requires Valid() && Possible(Abs(), handler, e)
      requires e.Receive? ==> |e.bytes| <= conn.inputBuffer.ReadCapacity()
      modifies this, parser, conn, conn.inputBuffer, conn.inputBuffer.data
      modifies conn.socket, conn.outputBuffer, conn.outputBuffer.data, conn.channel
      modifies conn.poller`channels, conn.poller`kernel
      ensures Valid() && Abs() == Step(old(Abs()), handler, e)
      ensures conn.inputBuffer.data == old(conn.inputBuffer.data) || fresh(conn.inputBuffer.data)
      ensures conn.outputBuffer.data == old(conn.outputBuffer.data) || fresh(conn.outputBuffer.data)
    {
      hide Step, Possible, Pollers.EPollPoller.OnlyKnown, Pollers.EPollPoller.Agrees;
      match e {
        case Receive(bytes, w) => OnReadEvent(bytes, handler, w);
        case Writable(w) => OnWriteEvent(handler, w);
        case Destroyed => OnDestroyed(handler);
        case _ => OnNoData(handler, e);
      }
    }
  }

  /** A connection of the server from its acceptance on. */
  method NewSession(config: Config, fd: int) returns (session: HttpSession)
    ensures fresh(session) && fresh(session.parser) && fresh(session.conn) && session.Valid()
    ensures fresh(session.conn.inputBuffer) && fresh(session.conn.inputBuffer.data)
    ensures fresh(session.conn.outputBuffer) && fresh(session.conn.outputBuffer.data)
    ensures fresh(session.conn.channel) && fresh(session.conn.poller) && fresh(session.conn.socket)
    ensures session.Abs() == Accepted(config)
  {
    var poller := new Pollers.EPollPoller();
    var channel := new Pollers.Channel(fd);
    poller.Adopt(channel);
    var conn := new TcpConnection(config, channel, poller);
    conn.Establish();
    session := new HttpSession(conn);
  }

  lemma {:induction false} PlayNext(s: Session, handler: Handler, events: seq<Event>, n: nat)
    requires Play(s, handler, events).Some? && n < |events|
    ensures Play(s, handler, events[..n]).Some?
    ensures var t := Play(s, handler, events[..n]).value;
            Possible(t, handler, events[n]) && Play(s, handler, events[..n + 1]) == Some(Step(t, handler, events[n]))
    decreases n
  {
    hide Possible, Step;
    if n == 0 {
      assert events[..1][1..] == [];
    } else {
      PlayNext(Step(s, handler, events[0]), handler, events[1..], n - 1);
      assert events[..n][1..] == events[1..][..n - 1];
      assert events[..n + 1][1..] == events[1..][..n];
    }
  }

  /** THE OBJECTS ANSWER THE STREAM: real parser, buffers, channel, poller and connection follow any
      possible sequence of events, for as long as each read fits what `readFd` offers. So the requests
      handed to the callback are the first of the bytes received, and what was sent and waits in the
      output buffer are the replies to them. */
  method Serve(config: Config, fd: int, handler: Handler, events: seq<Event>) returns (session: HttpSession, n: nat)
    requires Play(Accepted(config), handler, events).Some?
    ensures fresh(session) && session.Valid() && n <= |events|
    ensures Play(Accepted(config), handler, events[..n]) == Some(session.Abs())
    ensures n < |events| ==>
              events[n].Receive? && |events[n].bytes| > session.conn.inputBuffer.ReadCapacity() >= EXTRA_SIZE
    ensures session.served <= ParseAll(FRESH, session.received).requests
    ensures session.conn.faults == 0 ==>
              session.conn.socket.Wire() + session.conn.outputBuffer.Contents()
              == Concat(AllAnswers(handler, session.served, session.rejected))
  {
    hide Possible, Step, Accepted, AllAnswers, Concat, ParseAll;
    hide Pollers.EPollPoller.OnlyKnown, Pollers.EPollPoller.Agrees;
    session := NewSession(config, fd);
    n := 0;
    while n < |events| && Fits(events[n], session.conn.inputBuffer)
      invariant fresh(session) && fresh(session.parser) && fresh(session.conn) && session.Valid() && n <= |events|
      invariant fresh(session.conn.inputBuffer) && fresh(session.conn.inputBuffer.data)
      invariant fresh(session.conn.outputBuffer) && fresh(session.conn.outputBuffer.data)
      invariant fresh(session.conn.channel) && fresh(session.conn.poller) && fresh(session.conn.socket)
      invariant Play(Accepted(config), handler, events[..n]) == Some(session.Abs())
    {
      PlayNext(Accepted(config), handler, events, n);
      session.OnEvent(handler, events[n]);
      n := n + 1;
    }
    ServerAnswersTheStream(config, handler, events[..n]);
  }

  predicate Fits(e: Event, input: Buffer)
    requires input.Valid()
    reads input
  {
    e.Receive? ==> |e.bytes| <= input.ReadCapacity()
  }
}
