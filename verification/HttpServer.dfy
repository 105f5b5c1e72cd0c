/** The HTTP server on one connection: `onMessage` drives the parser, the printer and the connection.
    The user's callback is an arbitrary function of the request. */
module HttpServers {
  import opened Text
  import opened Buffers
  import opened HttpRequests
  import opened HttpParsers
  import opened RequestRoundTrips
  import opened HttpResponses
  import opened TcpConnections

  type Handler = Request -> Response

  const BAD_REQUEST: Response := Response(400, "Bad Request", map[], "", true)

  /** `received`, `served` and `rejected` are histories: the bytes read so far, the requests handed to
      the callback, and whether a request line was refused. `crashed` stands for an exception that
      left `parseRequest`; nothing catches it. */
  datatype Session = Session(
    conn: Conn,
    parser: Parser,
    crashed: bool,
    received: string,
    served: seq<Request>,
    rejected: bool)

  function Reply(s: Session, handler: Handler): Option<Response>
    requires s.parser.state != GotAll
  {
    var r := Advance(s.parser, s.conn.input);
    match r.outcome
    case Rejected => Some(BAD_REQUEST)
    case Complete => Some(handler(r.parser.request))
    case _ => None
  }

  /** `w` is a possible answer of the kernel to the direct write of the reply. */
  ghost predicate PossibleWrite(s: Session, handler: Handler, w: WriteResult)
    requires s.parser.state != GotAll
  {
    var reply := Reply(s, handler);
    reply.Some? ==> CanAnswer(w, PrintResponse(reply.value))
  }

  /** Send a reply; a closing one is followed by `shutdown`. */
  function Answer(c: Conn, reply: Response, w: WriteResult): Conn
    requires CanAnswer(w, PrintResponse(reply))
  {
    var c1 := Send(c, PrintResponse(reply), w);
    if reply.close then Shutdown(c1) else c1
  }

  function OnMessage(s: Session, handler: Handler, w: WriteResult): Session
    requires s.parser.state != GotAll && PossibleWrite(s, handler, w)
  {
    var r := Advance(s.parser, s.conn.input);
    var c := s.conn.(input := r.rest);
    match r.outcome
    case Thrown => s.(conn := c, parser := r.parser, crashed := true)
    case NeedMore => s.(conn := c, parser := r.parser)
    case Rejected => s.(conn := Answer(c, BAD_REQUEST, w), parser := r.parser, rejected := true)
    case Complete =>
      var request := r.parser.request;
      s.(conn := Answer(c, handler(request), w), parser := FRESH, served := s.served + [request])
  }

  // ---- runs ----

  /** Events of the connection, with the kernel's answers. */
  datatype Event =
    | Receive(bytes: string, w: WriteResult)
    | ReadFailed
    | Writable(w: WriteResult)
    | PeerClosed
    | Destroyed

  function Received(s: Session, bytes: string): Session
    requires Open(s.conn.state)
  {
    s.(conn := HandleRead(s.conn, Data(bytes)), received := s.received + bytes)
  }

  ghost predicate Possible(s: Session, handler: Handler, e: Event) {
    && !s.crashed && s.parser.state != GotAll
    && match e
       case Receive(bytes, w) => Open(s.conn.state) && bytes != "" && PossibleWrite(Received(s, bytes), handler, w)
       case ReadFailed => Open(s.conn.state)
       case Writable(w) => Enabled(s.conn, WriteStep(w))
       case PeerClosed => Open(s.conn.state)
       case Destroyed => s.conn.closed
  }

  ghost function Step(s: Session, handler: Handler, e: Event): Session
    requires Possible(s, handler, e)
  {
    match e
    case Receive(bytes, w) => OnMessage(Received(s, bytes), handler, w)
    case ReadFailed => s.(conn := HandleRead(s.conn, ReadError))
    case Writable(w) => s.(conn := HandleWrite(s.conn, w))
    case PeerClosed => s.(conn := HandleRead(s.conn, Data("")))
    case Destroyed => s.(conn := ConnectDestroyed(s.conn))
  }

  function Accepted(config: Config): Session {
    Session(ConnectEstablished(NewConn(config)), FRESH, false, "", [], false)
  }

  ghost function Play(s: Session, handler: Handler, events: seq<Event>): Option<Session>
    decreases |events|
  {
    if events == [] then Some(s)
    else if Possible(s, handler, events[0]) then Play(Step(s, handler, events[0]), handler, events[1..])
    else None
  }

  // ---- what a run produces ----

  /** Some handled request got a closing reply. */
  ghost predicate Ended(handler: Handler, requests: seq<Request>) {
    exists i :: 0 <= i < |requests| && handler(requests[i]).close
  }

  /** The replies to the requests, up to and including the first closing one. */
  ghost function Answers(handler: Handler, requests: seq<Request>): seq<string> {
    if requests == [] then []
    else
      var before := requests[..|requests| - 1];
      if Ended(handler, before) then Answers(handler, before)
      else Answers(handler, before) + [PrintResponse(handler(requests[|requests| - 1]))]
  }

  ghost function AllAnswers(handler: Handler, requests: seq<Request>, rejected: bool): seq<string> {
    if rejected && !Ended(handler, requests) then Answers(handler, requests) + [PrintResponse(BAD_REQUEST)]
    else Answers(handler, requests)
  }

  ghost function Prepend(requests: seq<Request>, t: Stream): Stream {
    t.(requests := requests + t.requests)
  }

  /** However the stream goes on, the requests served so far are its first requests, and what the
      parser still has to say about the unread bytes is the rest of it. */
  ghost predicate InStep(s: Session, more: string)
    requires s.parser.state != GotAll
  {
    ParseAll(FRESH, s.received + more) == Prepend(s.served, ParseAll(s.parser, s.conn.input + more))
  }

  ghost predicate Sound(s: Session, handler: Handler) {
    && Good(s.conn)
    && (!s.crashed ==> s.parser.state != GotAll && forall more :: InStep(s, more))
    && (s.crashed ==> s.served == ParseAll(FRESH, s.received).requests)
    && s.conn.offered == AllAnswers(handler, s.served, s.rejected)
    && (s.conn.state == Connected ==> !s.rejected && !Ended(handler, s.served))
    && (s.conn.state == Disconnecting ==> s.rejected || Ended(handler, s.served))
    && s.conn.state != Connecting
    && (s.rejected && !s.crashed ==> Advance(s.parser, s.conn.input).outcome == Rejected)
  }

  // ---- the parser side of a step ----

  lemma ParseAllGoesOn(p: Parser, s: string, more: string)
    requires p.state != GotAll
    requires Advance(p, s).outcome == Complete
    ensures ParseAll(p, s + more)
            == Prepend([Advance(p, s).parser.request], ParseAll(FRESH, Advance(p, s).rest + more))
  {
    hide Advance;
    AdvanceSplit(p, s, more);
  }

  lemma ParseAllWaits(p: Parser, s: string, more: string)
    requires p.state != GotAll
    requires Advance(p, s).outcome == NeedMore || Advance(p, s).outcome == Rejected
    ensures Advance(p, s).parser.state != GotAll
    ensures ParseAll(p, s + more) == ParseAll(Advance(p, s).parser, Advance(p, s).rest + more)
  {
    hide Advance;
    Progress(p, s);
    AdvanceSplit(p, s, more);
    if Advance(p, s).outcome == Rejected {
      RejectedForever(p, s, more);
    }
  }

  lemma ParseAllStops(p: Parser, s: string)
    requires p.state != GotAll && Advance(p, s).outcome != Complete
    ensures s + "" == s && ParseAll(p, s + "").requests == []
  {
    hide Advance;
    assert s + "" == s;
  }

  lemma ReceivedInStep(s: Session, bytes: string)
    requires s.parser.state != GotAll && Open(s.conn.state) && bytes != ""
    requires forall more :: InStep(s, more)
    ensures forall more :: InStep(Received(s, bytes), more)
  {
    hide ParseAll;
    forall more ensures InStep(Received(s, bytes), more) {
      assert InStep(s, bytes + more);
      assert s.received + (bytes + more) == (s.received + bytes) + more;
      assert s.conn.input + (bytes + more) == (s.conn.input + bytes) + more;
    }
  }

  lemma AnswerKeepsInput(c: Conn, reply: Response, w: WriteResult)
    requires CanAnswer(w, PrintResponse(reply))
    ensures Answer(c, reply, w).input == c.input
  {
    hide PrintResponse, SendInLoop;
    SendInLoopKeeps(c, PrintResponse(reply), w);
  }

  lemma OnMessageInStep(s: Session, handler: Handler, w: WriteResult)
    requires s.parser.state != GotAll && PossibleWrite(s, handler, w)
    requires forall more :: InStep(s, more)
    ensures var t := OnMessage(s, handler, w);
            && (!s.crashed && !t.crashed ==> t.parser.state != GotAll && forall more :: InStep(t, more))
            && (!s.crashed && t.crashed ==> t.served == ParseAll(FRESH, t.received).requests)
  {
    hide Advance, ParseAll, PrintResponse, Answer;
    var r := Advance(s.parser, s.conn.input);
    var t := OnMessage(s, handler, w);
    if r.outcome == Thrown {
      assert InStep(s, "");
      ParseAllStops(s.parser, s.conn.input);
      assert s.received + "" == s.received && s.served + [] == s.served;
    } else if r.outcome == Complete {
      AnswerKeepsInput(s.conn.(input := r.rest), handler(r.parser.request), w);
      forall more ensures InStep(t, more) {
        assert InStep(s, more);
        ServedInStep(s, t, more);
      }
    } else {
      if r.outcome == Rejected {
        AnswerKeepsInput(s.conn.(input := r.rest), BAD_REQUEST, w);
      }
      ParseAllWaits(s.parser, s.conn.input, "");
      forall more ensures InStep(t, more) {
        assert InStep(s, more);
        ParseAllWaits(s.parser, s.conn.input, more);
      }
    }
  }

  lemma ServedInStep(s: Session, t: Session, more: string)
    requires s.parser.state != GotAll && InStep(s, more)
    requires var r := Advance(s.parser, s.conn.input);
             && r.outcome == Complete && t.parser == FRESH && t.received == s.received
             && t.conn.input == r.rest && t.served == s.served + [r.parser.request]
    ensures InStep(t, more)
  {
    hide Advance, ParseAll;
    var r := Advance(s.parser, s.conn.input);
    ParseAllGoesOn(s.parser, s.conn.input, more);
    var later := ParseAll(FRESH, r.rest + more);
    assert s.served + ([r.parser.request] + later.requests) == t.served + later.requests;
  }

  // ---- the connection side of a step ----

  lemma GoodIgnoresInput(c: Conn, input: string)
    requires Good(c)
    ensures Good(c.(input := input))
  {
  }

  lemma AnswerKeepsGood(c: Conn, reply: Response, w: WriteResult)
    requires Good(c) && CanAnswer(w, PrintResponse(reply))
    ensures Good(Answer(c, reply, w))
  {
    hide Good, PrintResponse, Send, Shutdown;
    SendKeepsGood(c, PrintResponse(reply), w);
    ShutdownKeepsGood(Send(c, PrintResponse(reply), w));
  }

  /** A reply is taken exactly when the connection is still connected; a closing one is the last. */
  lemma AnswerEffect(c: Conn, reply: Response, w: WriteResult)
    requires CanAnswer(w, PrintResponse(reply))
    ensures var d := Answer(c, reply, w);
            && d.offered == (if c.state == Connected then c.offered + [PrintResponse(reply)] else c.offered)
            && d.state == (if c.state == Connected && reply.close then Disconnecting else c.state)
            && d.closed == c.closed
  {
    hide PrintResponse, SendInLoop;
    SendInLoopKeeps(c, PrintResponse(reply), w);
  }

  lemma AnswersSnoc(handler: Handler, requests: seq<Request>, request: Request)
    ensures Answers(handler, requests + [request])
            == if Ended(handler, requests) then Answers(handler, requests)
               else Answers(handler, requests) + [PrintResponse(handler(request))]
    ensures Ended(handler, requests + [request]) <==> Ended(handler, requests) || handler(request).close
  {
    var all := requests + [request];
    assert all[..|all| - 1] == requests;
    if Ended(handler, requests) {
      var i :| 0 <= i < |requests| && handler(requests[i]).close;
      assert handler(all[i]).close;
    }
    assert handler(request).close ==> handler(all[|requests|]).close;
  }

  /** The replies of a step are those of the requests it serves. */
  lemma OnMessageReplies(s: Session, handler: Handler, w: WriteResult)
    requires s.parser.state != GotAll && PossibleWrite(s, handler, w)
    requires Open(s.conn.state)
    requires s.conn.offered == AllAnswers(handler, s.served, s.rejected)
    requires s.conn.state == Connected ==> !s.rejected && !Ended(handler, s.served)
    requires s.conn.state == Disconnecting ==> s.rejected || Ended(handler, s.served)
    requires s.rejected ==> Advance(s.parser, s.conn.input).outcome == Rejected
    ensures var t := OnMessage(s, handler, w);
            && t.conn.offered == AllAnswers(handler, t.served, t.rejected)
            && (t.conn.state == Connected ==> !t.rejected && !Ended(handler, t.served))
            && (t.conn.state == Disconnecting ==> t.rejected || Ended(handler, t.served))
            && Open(t.conn.state)
  {
    hide Advance, PrintResponse, Answer, Ended, Answers;
    var r := Advance(s.parser, s.conn.input);
    var c := s.conn.(input := r.rest);
    if r.outcome == Rejected {
      AnswerEffect(c, BAD_REQUEST, w);
    } else if r.outcome == Complete {
      AnswerEffect(c, handler(r.parser.request), w);
      AnswersSnoc(handler, s.served, r.parser.request);
    }
  }

  lemma OnMessageStaysRejected(s: Session, handler: Handler, w: WriteResult)
    requires s.parser.state != GotAll && PossibleWrite(s, handler, w)
    requires s.rejected ==> Advance(s.parser, s.conn.input).outcome == Rejected
    ensures var t := OnMessage(s, handler, w);
            t.rejected && !t.crashed ==> t.parser.state != GotAll && Advance(t.parser, t.conn.input).outcome == Rejected
  {
    hide Advance, PrintResponse, Answer;
    var r := Advance(s.parser, s.conn.input);
    if r.outcome == Rejected {
      AnswerKeepsInput(s.conn.(input := r.rest), BAD_REQUEST, w);
      RejectedForever(s.parser, s.conn.input, "");
      assert r.rest + "" == r.rest;
    }
  }

  lemma OnMessageKeepsGood(s: Session, handler: Handler, w: WriteResult)
    requires s.parser.state != GotAll && PossibleWrite(s, handler, w) && Good(s.conn)
    ensures Good(OnMessage(s, handler, w).conn)
  {
    hide Advance, PrintResponse, Answer, Good;
    var r := Advance(s.parser, s.conn.input);
    var c := s.conn.(input := r.rest);
    GoodIgnoresInput(s.conn, r.rest);
    if r.outcome == Rejected {
      AnswerKeepsGood(c, BAD_REQUEST, w);
    } else if r.outcome == Complete {
      AnswerKeepsGood(c, handler(r.parser.request), w);
    }
  }

  lemma ReceiveKeepsSound(s: Session, handler: Handler, bytes: string, w: WriteResult)
    requires Sound(s, handler) && Possible(s, handler, Receive(bytes, w))
    ensures Sound(Step(s, handler, Receive(bytes, w)), handler)
  {
    hide Good, OnMessage, Advance, Ended, AllAnswers, PossibleWrite, InStep;
    var t := Received(s, bytes);
    ReadKeepsGood(s.conn, Data(bytes));
    ReceivedInStep(s, bytes);
    if s.rejected {
      RejectedForever(s.parser, s.conn.input, bytes);
      Progress(s.parser, s.conn.input);
      StaysRejected(s.parser, s.conn.input, bytes);
    }
    OnMessageKeepsGood(t, handler, w);
    OnMessageInStep(t, handler, w);
    OnMessageReplies(t, handler, w);
    OnMessageStaysRejected(t, handler, w);
  }

  lemma StaysRejected(p: Parser, s: string, more: string)
    requires p.state != GotAll && Advance(p, s).outcome == Rejected
    ensures Advance(p, s + more).outcome == Rejected
  {
    hide Advance;
    AdvanceSplit(p, s, more);
  }

  lemma StepKeepsSound(s: Session, handler: Handler, e: Event)
    requires Sound(s, handler) && Possible(s, handler, e)
    ensures Sound(Step(s, handler, e), handler)
  {
    match e {
      case Receive(bytes, w) =>
        ReceiveKeepsSound(s, handler, bytes, w);
      case _ =>
        OtherEventKeepsSound(s, handler, e);
    }
  }

  lemma OtherEventKeepsSound(s: Session, handler: Handler, e: Event)
    requires Sound(s, handler) && Possible(s, handler, e) && !e.Receive?
    ensures Sound(Step(s, handler, e), handler)
  {
    hide Good, Advance, Ended, AllAnswers, ParseAll, PossibleWrite;
    match e {
      case Writable(w) => WriteKeepsGood(s.conn, w);
      case Destroyed => DestroyKeepsGood(s.conn);
      case PeerClosed => ReadKeepsGood(s.conn, Data(""));
      case ReadFailed => ReadKeepsGood(s.conn, ReadError);
    }
    var t := Step(s, handler, e);
    assert t.conn.input == s.conn.input && t.conn.offered == s.conn.offered;
    if !t.crashed {
      forall more ensures InStep(t, more) {
        assert InStep(s, more);
      }
    }
  }

  lemma {:induction false} PlayKeepsSound(s: Session, handler: Handler, events: seq<Event>)
    requires Sound(s, handler) && Play(s, handler, events).Some?
    ensures Sound(Play(s, handler, events).value, handler)
    decreases |events|
  {
    hide Sound, Step, Possible;
    if events != [] {
      StepKeepsSound(s, handler, events[0]);
      PlayKeepsSound(Step(s, handler, events[0]), handler, events[1..]);
    }
  }

  lemma AcceptedIsSound(config: Config, handler: Handler)
    ensures Sound(Accepted(config), handler)
  {
    hide ParseAll;
    var s := Accepted(config);
    assert FindCRLF("") == None;
    forall more ensures InStep(s, more) {
      assert "" + more == more;
      var t := ParseAll(FRESH, more);
      assert [] + t.requests == t.requests;
    }
    RunKeepsGood(NewConn(config), [EstablishStep]);
    assert Run(NewConn(config), [EstablishStep]) == Some(s.conn) by {
      assert [EstablishStep][1..] == [];
    }
  }

  /** END TO END. Whatever the fragmentation, the short writes and the close events: the requests
      handed to the callback are the first requests of the received stream, and all of them if a call
      threw; the bytes on the wire followed by those waiting are the replies to them, up to the first
      closing reply, and one 400 at the end if a request line was refused. */
  lemma ServerAnswersTheStream(config: Config, handler: Handler, events: seq<Event>)
    requires Play(Accepted(config), handler, events).Some?
    ensures var s := Play(Accepted(config), handler, events).value;
            && s.served <= ParseAll(FRESH, s.received).requests
            && (s.crashed ==> s.served == ParseAll(FRESH, s.received).requests)
            && s.conn.offered == AllAnswers(handler, s.served, s.rejected)
            && (s.conn.faults == 0 ==>
                  s.conn.wire + s.conn.output == Concat(AllAnswers(handler, s.served, s.rejected)))
  {
    hide Step, Possible, ParseAll, AllAnswers, Concat;
    AcceptedIsSound(config, handler);
    PlayKeepsSound(Accepted(config), handler, events);
    var s := Play(Accepted(config), handler, events).value;
    if !s.crashed {
      assert InStep(s, "");
      assert s.received + "" == s.received;
    }
  }

  /** `onMessage` handles one request per read. So after a run every complete request received has been
      served exactly when the unread bytes do not start with another complete one. */
  lemma AllServedUnlessOneWaits(config: Config, handler: Handler, events: seq<Event>)
    requires Play(Accepted(config), handler, events).Some?
    requires !Play(Accepted(config), handler, events).value.crashed
    ensures var s := Play(Accepted(config), handler, events).value;
            && s.parser.state != GotAll
            && (s.served == ParseAll(FRESH, s.received).requests
                <==> Advance(s.parser, s.conn.input).outcome != Complete)
  {
    hide Step, Possible, Advance, Good, Ended, AllAnswers;
    AcceptedIsSound(config, handler);
    PlayKeepsSound(Accepted(config), handler, events);
    var s := Play(Accepted(config), handler, events).value;
    assert InStep(s, "");
    assert s.received + "" == s.received && s.conn.input + "" == s.conn.input;
  }

  /** Two well-formed requests that arrive in one read: only the first is served, the second waits in
      the buffer until more bytes arrive. */
  lemma SecondRequestInOneReadWaits(s: Session, handler: Handler, a: Message, b: Message, w: WriteResult)
    requires WellFormed(a.0, a.1) && WellFormed(b.0, b.1)
    requires s.parser == FRESH && s.conn.input == "" && Open(s.conn.state) && !s.crashed
    requires Possible(s, handler, Receive(Print(a.0, a.1) + Print(b.0, b.1), w))
    ensures var t := Step(s, handler, Receive(Print(a.0, a.1) + Print(b.0, b.1), w));
            && t.served == s.served + [a.0] && t.parser == FRESH && t.conn.input == Print(b.0, b.1)
            && Advance(t.parser, t.conn.input).outcome == Complete
  {
    hide Advance, Print, PrintResponse, Answer, WellFormedFields, Enumerates;
    RequestRoundTrip(a.0, a.1, Print(b.0, b.1));
    RequestRoundTrip(b.0, b.1, "");
    assert Print(b.0, b.1) + "" == Print(b.0, b.1);
    var bytes := Print(a.0, a.1) + Print(b.0, b.1);
    assert s.conn.input + bytes == bytes;
    AnswerKeepsInput(Received(s, bytes).conn.(input := Print(b.0, b.1)), handler(a.0), w);
  }

  /** A closing reply or a 400 was handed to a connected connection. */
  ghost predicate FinalSent(s: Session, handler: Handler) {
    s.rejected || Ended(handler, s.served)
  }

  /** NOTHING AFTER THE FINAL RESPONSE: after a 400 or a closing reply the accepted bytes never change,
      whatever arrives; in particular a second 400 is never accepted. */
  lemma NothingAfterFinalResponse(config: Config, handler: Handler, events: seq<Event>, later: seq<Event>)
    requires Play(Accepted(config), handler, events).Some?
    requires FinalSent(Play(Accepted(config), handler, events).value, handler)
    requires Play(Play(Accepted(config), handler, events).value, handler, later).Some?
    ensures var s := Play(Accepted(config), handler, events).value;
            var t := Play(s, handler, later).value;
            && t.conn.accepted == s.conn.accepted && t.conn.offered == s.conn.offered
            && (s.rejected && !t.crashed ==>
                  && t.parser.state != GotAll && t.served == s.served
                  && Advance(t.parser, t.conn.input).outcome == Rejected)
  {
    AcceptedIsSound(config, handler);
    PlayKeepsSound(Accepted(config), handler, events);
    var s := Play(Accepted(config), handler, events).value;
    SilentAfter(s, handler, later);
  }

  lemma SilentStep(s: Session, handler: Handler, e: Event)
    requires Possible(s, handler, e) && (s.conn.state == Disconnecting || s.conn.state == Disconnected)
    ensures var t := Step(s, handler, e);
            && t.conn.accepted == s.conn.accepted && t.conn.offered == s.conn.offered
            && (t.conn.state == Disconnecting || t.conn.state == Disconnected)
  {
    hide Advance, PrintResponse, SendInLoop, HandleWrite;
    if e.Writable? {
      WriteKeepsState(s.conn, e.w);
    }
  }

  lemma WriteKeepsState(c: Conn, w: WriteResult)
    requires CanAnswer(w, c.output)
    ensures var d := HandleWrite(c, w);
            d.accepted == c.accepted && d.offered == c.offered && d.state == c.state
  {
  }

  lemma RejectedStep(s: Session, handler: Handler, e: Event)
    requires Possible(s, handler, e) && s.rejected && Advance(s.parser, s.conn.input).outcome == Rejected
    ensures Step(s, handler, e).served == s.served && Step(s, handler, e).rejected
  {
    hide Advance, PrintResponse, Answer;
    if e.Receive? {
      StaysRejected(s.parser, s.conn.input, e.bytes);
    }
  }

  lemma {:induction false} SilentAfter(s: Session, handler: Handler, later: seq<Event>)
    requires Sound(s, handler) && Play(s, handler, later).Some?
    requires s.conn.state == Disconnecting || s.conn.state == Disconnected
    ensures var t := Play(s, handler, later).value;
            && t.conn.accepted == s.conn.accepted && t.conn.offered == s.conn.offered
            && (s.rejected && !t.crashed ==>
                  && t.parser.state != GotAll && t.served == s.served
                  && Advance(t.parser, t.conn.input).outcome == Rejected)
    decreases |later|
  {
    hide Step, Possible, Advance, Good, Ended, AllAnswers, InStep;
    if later != [] {
      StepKeepsSound(s, handler, later[0]);
      SilentStep(s, handler, later[0]);
      NotCrashed(s, handler, later[0]);
      if s.rejected {
        RejectedStep(s, handler, later[0]);
      }
      SilentAfter(Step(s, handler, later[0]), handler, later[1..]);
    }
  }

  lemma NotCrashed(s: Session, handler: Handler, e: Event)
    requires Possible(s, handler, e)
    ensures !s.crashed
  {
  }
}
