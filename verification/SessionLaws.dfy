/** A session seen from its connection: its events are runs of the connection, so what holds of those runs holds
    of the server's replies. */
module SessionLaws {
  import opened Text
  import opened Buffers
  import opened HttpParsers
  import opened HttpResponses
  import opened HttpServers
  import TcpConnections
  import ConnectionLaws

  type Action = TcpConnections.Action

  /** The bytes the parser takes out of the input buffer. */
  function Taken(s: Session): nat
    requires s.parser.state != GotAll
  {
    Progress(s.parser, s.conn.input);
    |s.conn.input| - |Advance(s.parser, s.conn.input).rest|
  }

  /** What a reply is to the connection: a send, and a shutdown behind a closing one. */
  function ReplyActions(reply: Option<Response>, w: TcpConnections.WriteResult): seq<Action> {
    if reply.None? then []
    else [TcpConnections.SendStep(PrintResponse(reply.value), w)]
         + (if reply.value.close then [TcpConnections.ShutdownStep] else [])
  }

  /** What an event is to the connection. */
  ghost function ActionsOf(s: Session, handler: Handler, e: Event): seq<Action>
    requires Possible(s, handler, e)
  {
    match e
    case Receive(bytes, w) =>
      var t := Received(s, bytes);
      [TcpConnections.ReadStep(Data(bytes)), TcpConnections.ConsumeStep(Taken(t))] + ReplyActions(Reply(t, handler), w)
    case ReadFailed => [TcpConnections.ReadStep(ReadError)]
    case Writable(w) => [TcpConnections.WriteStep(w)]
    case PeerClosed => [TcpConnections.ReadStep(Data(""))]
    case Destroyed => [TcpConnections.DestroyStep]
  }

  lemma OneAction(c: TcpConnections.Conn, a: Action)
    requires TcpConnections.Enabled(c, a)
    ensures TcpConnections.Run(c, [a]) == Some(TcpConnections.Apply(c, a))
  {
    hide TcpConnections.Enabled, TcpConnections.Apply;
    assert [a][1..] == [];
  }

  lemma {:induction false} RunsInTurn(c: TcpConnections.Conn, steps: seq<Action>, more: seq<Action>)
    requires TcpConnections.Run(c, steps).Some?
    ensures TcpConnections.Run(c, steps + more) == TcpConnections.Run(TcpConnections.Run(c, steps).value, more)
    decreases |steps|
  {
    hide TcpConnections.Enabled, TcpConnections.Apply;
    if steps == [] {
      assert steps + more == more;
    } else {
      assert (steps + more)[1..] == steps[1..] + more;
      RunsInTurn(TcpConnections.Apply(c, steps[0]), steps[1..], more);
    }
  }

  lemma ReplyIsRun(c: TcpConnections.Conn, reply: Response, w: TcpConnections.WriteResult)
    requires TcpConnections.CanAnswer(w, PrintResponse(reply))
    ensures TcpConnections.Run(c, ReplyActions(Some(reply), w)) == Some(Answer(c, reply, w))
  {
    hide PrintResponse, TcpConnections.Send, TcpConnections.Shutdown, TcpConnections.Run;
    var send := TcpConnections.SendStep(PrintResponse(reply), w);
    OneAction(c, send);
    if reply.close {
      OneAction(TcpConnections.Send(c, PrintResponse(reply), w), TcpConnections.ShutdownStep);
      RunsInTurn(c, [send], [TcpConnections.ShutdownStep]);
    } else {
      assert [send] + [] == [send];
    }
  }

  /** `onMessage` to the connection: the parser's bytes are taken out, and the reply follows. */
  lemma MessageIsRun(t: Session, handler: Handler, w: TcpConnections.WriteResult)
    requires t.parser.state != GotAll && PossibleWrite(t, handler, w)
    ensures TcpConnections.Run(t.conn, [TcpConnections.ConsumeStep(Taken(t))] + ReplyActions(Reply(t, handler), w))
            == Some(OnMessage(t, handler, w).conn)
  {
    hide Advance, PrintResponse, Answer, TcpConnections.Run;
    Progress(t.parser, t.conn.input);
    var r := Advance(t.parser, t.conn.input);
    var c := t.conn.(input := r.rest);
    OneAction(t.conn, TcpConnections.ConsumeStep(Taken(t)));
    RunsInTurn(t.conn, [TcpConnections.ConsumeStep(Taken(t))], ReplyActions(Reply(t, handler), w));
    if Reply(t, handler).Some? {
      ReplyIsRun(c, Reply(t, handler).value, w);
    } else {
      NoActions(c);
    }
  }

  lemma NoActions(c: TcpConnections.Conn)
    ensures TcpConnections.Run(c, []) == Some(c)
  {
  }

  lemma StepIsRun(s: Session, handler: Handler, e: Event)
    requires Possible(s, handler, e)
    ensures TcpConnections.Run(s.conn, ActionsOf(s, handler, e)) == Some(Step(s, handler, e).conn)
  {
    hide TcpConnections.Run, OnMessage, PossibleWrite, Reply, Taken, ReplyActions;
    match e {
      case Receive(bytes, w) =>
        var t := Received(s, bytes);
        var read, more := TcpConnections.ReadStep(Data(bytes)), ReplyActions(Reply(t, handler), w);
        OneAction(s.conn, read);
        MessageIsRun(t, handler, w);
        RunsInTurn(s.conn, [read], [TcpConnections.ConsumeStep(Taken(t))] + more);
        assert [read] + ([TcpConnections.ConsumeStep(Taken(t))] + more)
            == [read, TcpConnections.ConsumeStep(Taken(t))] + more;
      case ReadFailed => OneAction(s.conn, TcpConnections.ReadStep(ReadError));
      case Writable(w) => OneAction(s.conn, TcpConnections.WriteStep(w));
      case PeerClosed => OneAction(s.conn, TcpConnections.ReadStep(Data("")));
      case Destroyed => OneAction(s.conn, TcpConnections.DestroyStep);
    }
  }

  /** What a run of events is to the connection. */
  ghost function AllActions(s: Session, handler: Handler, events: seq<Event>): seq<Action>
    decreases |events|
  {
    if events == [] || !Possible(s, handler, events[0]) then []
    else ActionsOf(s, handler, events[0]) + AllActions(Step(s, handler, events[0]), handler, events[1..])
  }

  lemma {:induction false} PlayIsRun(s: Session, handler: Handler, events: seq<Event>)
    requires Play(s, handler, events).Some?
    ensures TcpConnections.Run(s.conn, AllActions(s, handler, events)) == Some(Play(s, handler, events).value.conn)
    decreases |events|
  {
    hide Possible, Step, ActionsOf, TcpConnections.Run;
    if events == [] {
      NoActions(s.conn);
    } else {
      var t := Step(s, handler, events[0]);
      StepIsRun(s, handler, events[0]);
      PlayIsRun(t, handler, events[1..]);
      RunsInTurn(s.conn, ActionsOf(s, handler, events[0]), AllActions(t, handler, events[1..]));
    }
  }

  /** SESSIONS ARE RUNS: every run of a session is, to its connection, a run of reads, takings, sends, shutdowns and
      drains from its creation. So its wire is what the kernel took, and its state, callbacks and unread bytes are
      those of the ledger. */
  lemma SessionIsRun(config: TcpConnections.Config, handler: Handler, events: seq<Event>)
    requires Play(Accepted(config), handler, events).Some?
    ensures var steps := [TcpConnections.EstablishStep] + AllActions(Accepted(config), handler, events);
            var c := Play(Accepted(config), handler, events).value.conn;
            && TcpConnections.Run(TcpConnections.NewConn(config), steps) == Some(c)
            && c.wire == TcpConnections.DeliveredAll(ConnectionLaws.CallsOf(TcpConnections.NewConn(config), steps))
            && ConnectionLaws.Matches(c, ConnectionLaws.Recorded(ConnectionLaws.BLANK, steps))
  {
    hide Play, AllActions, TcpConnections.Run, ConnectionLaws.CallsOf, ConnectionLaws.Recorded, ConnectionLaws.Matches;
    hide TcpConnections.DeliveredAll;
    var fresh0 := TcpConnections.NewConn(config);
    var more := AllActions(Accepted(config), handler, events);
    OneAction(fresh0, TcpConnections.EstablishStep);
    PlayIsRun(Accepted(config), handler, events);
    RunsInTurn(fresh0, [TcpConnections.EstablishStep], more);
    ConnectionLaws.WireIsWhatTheKernelTook(config, [TcpConnections.EstablishStep] + more);
    ConnectionLaws.LedgerIsKept(config, [TcpConnections.EstablishStep] + more);
  }
}
