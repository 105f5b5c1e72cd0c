/** The life of connections across loops: the base loop (loop 0) accepts and removes, each connection's
    home loop establishes, serves and destroys it, and any thread may send or shut down. One step is one
    handler, one task, one critical section, or one store to `state_`. */
module TcpServers {
  import opened Text
  import opened Buffers
  import opened Pollers
  import opened TcpConnections
  import EventLoops

  type LoopId = nat
  type ConnId = nat

  const BASE: LoopId := 0

  datatype Task =
    | Establish(c: ConnId)
    | RemoveInLoop(c: ConnId)
    | Destroy(c: ConnId)
    | SendTask(c: ConnId, message: string)
    | ShutdownTask(c: ConnId)

  type Loop = EventLoops.Loop<Task>

  /** The callbacks of a channel, and the bits `poll` reports. POLLRDHUP is never subscribed to. */
  datatype Handler = OnClose | OnError | OnRead | OnWrite

  datatype Bit = Reports(event: Event) | Error | Hup

  datatype Ready = Ready(c: ConnId, revents: set<Bit>)

  /** `handleEvent`: close, error, read, write, in this order. */
  function Handlers(r: Ready): seq<(ConnId, Handler)> {
    (if Hup in r.revents && Reports(In) !in r.revents then [(r.c, OnClose)] else [])
    + (if Error in r.revents then [(r.c, OnError)] else [])
    + (if Reports(In) in r.revents || Reports(Pri) in r.revents then [(r.c, OnRead)] else [])
    + (if Reports(Out) in r.revents then [(r.c, OnWrite)] else [])
  }

  function AllHandlers(ready: seq<Ready>): seq<(ConnId, Handler)> {
    if ready == [] then [] else Handlers(ready[0]) + AllHandlers(ready[1..])
  }

  /** What `revents_` has to hold for a callback to run. */
  predicate Calls(revents: set<Bit>, h: Handler) {
    match h
    case OnClose => Hup in revents && Reports(In) !in revents
    case OnError => Error in revents
    case OnRead => Reports(In) in revents || Reports(Pri) in revents
    case OnWrite => Reports(Out) in revents
  }

  function Place(h: Handler): nat {
    match h
    case OnClose => 0
    case OnError => 1
    case OnRead => 2
    case OnWrite => 3
  }

  /** WHICH CALLBACKS A REPORT RUNS: exactly these, each once, in this order. */
  lemma ReportRuns(r: Ready)
    ensures forall e :: e in Handlers(r) <==> e.0 == r.c && Calls(r.revents, e.1)
    ensures InPlace(Handlers(r), 4)
  {
    hide Calls, InPlace;
    var close, error := Maybe(Calls(r.revents, OnClose), r.c, OnClose), Maybe(Calls(r.revents, OnError), r.c, OnError);
    var read, write := Maybe(Calls(r.revents, OnRead), r.c, OnRead), Maybe(Calls(r.revents, OnWrite), r.c, OnWrite);
    FourParts(r);
    hide Handlers;
    FourPlaces(close, error, read, write, r.c);
    forall e ensures e in Handlers(r) <==> e.0 == r.c && Calls(r.revents, e.1) {
      assert e in Handlers(r) <==> e in close || e in error || e in read || e in write;
      InMaybe(e, r, OnClose);
      InMaybe(e, r, OnError);
      InMaybe(e, r, OnRead);
      InMaybe(e, r, OnWrite);
    }
  }

  function Maybe(called: bool, c: ConnId, h: Handler): seq<(ConnId, Handler)> {
    if called then [(c, h)] else []
  }

  lemma FourParts(r: Ready)
    ensures Handlers(r)
            == Maybe(Calls(r.revents, OnClose), r.c, OnClose) + Maybe(Calls(r.revents, OnError), r.c, OnError)
               + Maybe(Calls(r.revents, OnRead), r.c, OnRead) + Maybe(Calls(r.revents, OnWrite), r.c, OnWrite)
  {
  }

  lemma InMaybe(e: (ConnId, Handler), r: Ready, h: Handler)
    ensures e in Maybe(Calls(r.revents, h), r.c, h) <==> e.0 == r.c && e.1 == h && Calls(r.revents, h)
  {
    hide Calls;
  }

  lemma FourPlaces(close: seq<(ConnId, Handler)>, error: seq<(ConnId, Handler)>, read: seq<(ConnId, Handler)>,
                   write: seq<(ConnId, Handler)>, c: ConnId)
    requires close <= [(c, OnClose)] && error <= [(c, OnError)] && read <= [(c, OnRead)] && write <= [(c, OnWrite)]
    ensures InPlace(close + error + read + write, 4)
  {
    OneMorePlace([], close, 0);
    assert [] + close == close;
    hide InPlace;
    OneMorePlace(close, error, 1);
    OneMorePlace(close + error, read, 2);
    OneMorePlace(close + error + read, write, 3);
  }

  /** Ascending, and below this place. */
  ghost predicate InPlace(es: seq<(ConnId, Handler)>, end: nat) {
    && (forall i :: 0 <= i < |es| ==> Place(es[i].1) < end)
    && (forall i, j :: 0 <= i < j < |es| ==> Place(es[i].1) < Place(es[j].1))
  }

  lemma OneMorePlace(es: seq<(ConnId, Handler)>, more: seq<(ConnId, Handler)>, place: nat)
    requires InPlace(es, place) && |more| <= 1 && forall i :: 0 <= i < |more| ==> Place(more[i].1) == place
    ensures InPlace(es + more, place + 1)
  {
  }

  /** The reports of one `poll` are handled one after the other. */
  lemma {:induction false} ReportsInTurn(ready: seq<Ready>, more: seq<Ready>)
    ensures AllHandlers(ready + more) == AllHandlers(ready) + AllHandlers(more)
    decreases |ready|
  {
    hide Handlers;
    if ready == [] {
      assert ready + more == more;
    } else {
      assert (ready + more)[1..] == ready[1..] + more;
      ReportsInTurn(ready[1..], more);
    }
  }

  lemma {:induction false} AllReportsRun(ready: seq<Ready>, i: nat)
    requires i < |ready|
    ensures forall e :: e in Handlers(ready[i]) ==> e in AllHandlers(ready)
    decreases |ready|
  {
    hide Handlers;
    if i > 0 {
      AllReportsRun(ready[1..], i - 1);
    }
  }

  datatype Peer = Peer(conn: Conn, home: LoopId)

  /** Where another thread is inside `send` or `shutdown`: past the test of `state_`, or past the store. */
  datatype Stage =
    | SendTested(c: ConnId, message: string)
    | ShutdownTested(c: ConnId)
    | StateStored(c: ConnId)

  /** What such a thread queues next. */
  function TaskOf(stage: Stage): Task {
    if stage.SendTested? then SendTask(stage.c, stage.message) else ShutdownTask(stage.c)
  }

  /** `connections` is the server's map, `dispatch[l]` the callbacks loop `l` has still to run in this
      round; `failed` records a failed assertion of `connectEstablished` or `handleClose`. */
  datatype Server = Server(
    loops: map<LoopId, Loop>,
    dispatch: map<LoopId, seq<(ConnId, Handler)>>,
    peers: map<ConnId, Peer>,
    connections: set<ConnId>,
    nextConnId: ConnId,
    stage: map<nat, Stage>,
    failed: bool)

  /** The base loop and any set of I/O loops; without I/O loops the base loop serves all connections. */
  function NewServer(ids: set<LoopId>): Server {
    Server(map l | l in ids + {BASE} :: EventLoops.NewLoop<Task>(), map l | l in ids + {BASE} :: [],
           map[], {}, 1, map[], false)
  }

  datatype Step =
    | LoopMove(l: LoopId, m: EventLoops.Step<Task>)
    | PollReturns(l: LoopId, ready: seq<Ready>)
    | RunHandler(l: LoopId, r: ReadResult, w: WriteResult)
    | RunTask(l: LoopId, w: WriteResult)
    | Accept(home: LoopId, config: Config)
    | LoopSend(c: ConnId, message: string, w: WriteResult)
    | LoopShutdown(c: ConnId)
    | Consume(c: ConnId, n: nat)
    | ForeignTest(t: nat, stage: Stage)
    | ForeignSetState(t: nat)
    | ForeignPush(t: nat)

  /** The thread of loop `from` as loop `target` sees it. */
  function ThreadOf(from: LoopId, target: LoopId): EventLoops.Thread {
    if from == target then EventLoops.LoopThread else EventLoops.Other(from)
  }

  predicate CanPost(y: Server, target: LoopId, who: EventLoops.Thread, task: Task) {
    target in y.loops && EventLoops.Enabled(y.loops[target], EventLoops.Push(who, task))
  }

  function Post(y: Server, target: LoopId, who: EventLoops.Thread, task: Task): Server
    requires CanPost(y, target, who, task)
  {
    y.(loops := y.loops[target := EventLoops.Apply(y.loops[target], EventLoops.Push(who, task))])
  }

  function Update(y: Server, c: ConnId, conn: Conn): Server
    requires c in y.peers
  {
    y.(peers := y.peers[c := Peer(conn, y.peers[c].home)])
  }

  /** `removeConnectionInLoop`, on the base loop: always queues the destruction. */
  predicate CanRemoveNow(y: Server, c: ConnId) {
    c in y.peers && CanPost(y, y.peers[c].home, ThreadOf(BASE, y.peers[c].home), Destroy(c))
  }

  function RemoveNow(y: Server, c: ConnId): Server
    requires CanRemoveNow(y, c)
  {
    Post(y.(connections := y.connections - {c}), y.peers[c].home, ThreadOf(BASE, y.peers[c].home), Destroy(c))
  }

  /** `removeConnection` from loop `l`: at once on the base loop, through its queue from any other. */
  predicate CanRemove(y: Server, l: LoopId, c: ConnId) {
    if l == BASE then CanRemoveNow(y, c) else CanPost(y, BASE, EventLoops.Other(l), RemoveInLoop(c))
  }

  function RemovePeer(y: Server, l: LoopId, c: ConnId): Server
    requires CanRemove(y, l, c)
  {
    if l == BASE then RemoveNow(y, c) else Post(y, BASE, EventLoops.Other(l), RemoveInLoop(c))
  }

  predicate Runs(l: Loop) {
    EventLoops.RunsUserCode(l.phase) && EventLoops.LoopThread !in l.waking
  }

  predicate Plain(m: EventLoops.Step<Task>) {
    !m.Push? && !m.RunNext? && !m.PollReturns?
  }

  /** Only registered descriptors are reported, with subscribed events, errors and hang-ups. */
  predicate Reported(y: Server, l: LoopId, r: Ready) {
    && r.c in y.peers && y.peers[r.c].home == l && y.peers[r.c].conn.registered
    && forall b | b in r.revents :: b.Reports? ==> b.event in y.peers[r.c].conn.events
  }

  /** Whether the next callback of loop `l` ends in `handleClose`. */
  predicate Closes(h: Handler, r: ReadResult) {
    h == OnClose || (h == OnRead && r == Data(""))
  }

  predicate CanRunHandler(y: Server, l: LoopId, r: ReadResult, w: WriteResult) {
    && l in y.loops && l in y.dispatch && y.loops[l].phase == EventLoops.Dispatching && Runs(y.loops[l])
    && y.dispatch[l] != [] && y.dispatch[l][0].0 in y.peers
    && var (c, h) := y.dispatch[l][0];
       && (Closes(h, r) ==> CanRemove(y, l, c))
       && (h == OnWrite ==> CanAnswer(w, y.peers[c].conn.output))
  }

  predicate HasTask(y: Server, l: LoopId) {
    l in y.loops && EventLoops.Enabled(y.loops[l], EventLoops.RunNext)
  }

  /** The server once loop `l` has taken the next task of its batch. */
  function Taken(y: Server, l: LoopId): Server
    requires HasTask(y, l)
  {
    y.(loops := y.loops[l := EventLoops.Apply(y.loops[l], EventLoops.RunNext)])
  }

  predicate CanExecute(y: Server, task: Task, w: WriteResult) {
    && task.c in y.peers
    && (task.SendTask? ==> CanAnswer(w, task.message))
    && (task.RemoveInLoop? ==> CanRemoveNow(y, task.c))
  }

  predicate CanAccept(y: Server, home: LoopId) {
    && BASE in y.loops && y.loops[BASE].phase == EventLoops.Dispatching && Runs(y.loops[BASE]) && home in y.loops
    && (home != BASE ==> CanPost(y, home, EventLoops.Other(BASE), Establish(y.nextConnId)))
  }

  predicate Enabled(y: Server, s: Step) {
    match s
    case LoopMove(l, m) =>
      l in y.loops && Plain(m) && EventLoops.Enabled(y.loops[l], m)
      && (m.BeginCalling? ==> l in y.dispatch && y.dispatch[l] == [])
    case PollReturns(l, ready) =>
      l in y.loops && EventLoops.Enabled(y.loops[l], EventLoops.PollReturns)
      && forall i | 0 <= i < |ready| :: Reported(y, l, ready[i])
    case RunHandler(l, r, w) => CanRunHandler(y, l, r, w)
    case RunTask(l, w) => HasTask(y, l) && CanExecute(Taken(y, l), y.loops[l].batch[0], w)
    case Accept(home, _) => CanAccept(y, home)
    case LoopSend(c, message, w) => c in y.peers && CanAnswer(w, message)
    case LoopShutdown(c) => c in y.peers
    case Consume(c, n) => c in y.peers && n <= |y.peers[c].conn.input|
    case ForeignTest(t, stage) =>
      t !in y.stage && !stage.StateStored? && stage.c in y.peers && y.peers[stage.c].conn.state == Connected
    case ForeignSetState(t) => t in y.stage && y.stage[t].ShutdownTested? && y.stage[t].c in y.peers
    case ForeignPush(t) =>
      && t in y.stage && !y.stage[t].ShutdownTested? && y.stage[t].c in y.peers
      && CanPost(y, y.peers[y.stage[t].c].home, EventLoops.Other(t), TaskOf(y.stage[t]))
  }

  /** One callback of connection `c`, on its home loop `l`. */
  function Handle(y: Server, l: LoopId, c: ConnId, h: Handler, r: ReadResult, w: WriteResult): Server
    requires c in y.peers && (Closes(h, r) ==> CanRemove(y, l, c))
    requires h == OnWrite ==> CanAnswer(w, y.peers[c].conn.output)
  {
    var conn := y.peers[c].conn;
    if h == OnError || (h == OnRead && r.ReadError?) then y
    else if h == OnWrite then Update(y, c, HandleWrite(conn, w))
    else if !Open(conn.state) then y.(failed := true)
    else if Closes(h, r) then RemovePeer(Update(y, c, HandleClose(conn)), l, c)
    else Update(y, c, HandleRead(conn, r))
  }

  /** One task, on the loop it was queued in. */
  function Execute(y: Server, task: Task, w: WriteResult): Server
    requires CanExecute(y, task, w)
  {
    var conn := y.peers[task.c].conn;
    match task
    case Establish(c) => if conn.state == Connecting then Update(y, c, ConnectEstablished(conn)) else y.(failed := true)
    case RemoveInLoop(c) => RemoveNow(y, c)
    case Destroy(c) => Update(y, c, ConnectDestroyed(conn))
    case SendTask(c, message) => Update(y, c, SendInLoop(conn, message, w))
    case ShutdownTask(c) => Update(y, c, ShutdownInLoop(conn))
  }

  /** `newConnection`, on the base loop. */
  function NewConnection(y: Server, home: LoopId, config: Config): Server
    requires CanAccept(y, home)
  {
    var c := y.nextConnId;
    var conn := if home == BASE then ConnectEstablished(NewConn(config)) else NewConn(config);
    var z := y.(peers := y.peers[c := Peer(conn, home)], connections := y.connections + {c}, nextConnId := c + 1);
    if home == BASE then z else Post(z, home, EventLoops.Other(BASE), Establish(c))
  }

  function Apply(y: Server, s: Step): Server
    requires Enabled(y, s)
  {
    match s
    case LoopMove(l, m) => y.(loops := y.loops[l := EventLoops.Apply(y.loops[l], m)])
    case PollReturns(l, ready) =>
      y.(loops := y.loops[l := EventLoops.Apply(y.loops[l], EventLoops.PollReturns)],
         dispatch := y.dispatch[l := AllHandlers(ready)])
    case RunHandler(l, r, w) =>
      var (c, h) := y.dispatch[l][0];
      Handle(y.(dispatch := y.dispatch[l := y.dispatch[l][1..]]), l, c, h, r, w)
    case RunTask(l, w) => Execute(Taken(y, l), y.loops[l].batch[0], w)
    case Accept(home, config) => NewConnection(y, home, config)
    case LoopSend(c, message, w) => Update(y, c, Send(y.peers[c].conn, message, w))
    case LoopShutdown(c) => Update(y, c, Shutdown(y.peers[c].conn))
    case Consume(c, n) => Update(y, c, y.peers[c].conn.(input := y.peers[c].conn.input[n..]))
    case ForeignTest(t, stage) => y.(stage := y.stage[t := stage])
    case ForeignSetState(t) =>
      var c := y.stage[t].c;
      Update(y.(stage := y.stage[t := StateStored(c)]), c, y.peers[c].conn.(state := Disconnecting))
    case ForeignPush(t) =>
      Post(y.(stage := y.stage - {t}), y.peers[y.stage[t].c].home, EventLoops.Other(t), TaskOf(y.stage[t]))
  }

  function Play(y: Server, steps: seq<Step>): Option<Server>
    decreases |steps|
  {
    if steps == [] then Some(y)
    else if Enabled(y, steps[0]) then Play(Apply(y, steps[0]), steps[1..])
    else None
  }

  // ---- what every step keeps ----

  /** What holds of one connection at any time. Once `handleClose` ran, reading is off for good. */
  ghost predicate ConnSound(c: Conn) {
    && Shape(c.trace)
    && (c.state == Connecting <==> c.trace == [])
    && (c.state == Connecting ==> c.events == {} && !c.registered && !c.closed)
    && (c.state == Connected ==> !EndsWithDown(c.trace))
    && (c.state == Disconnected ==> c.closed && !c.registered)
    && (!c.closed ==> !EndsWithDown(c.trace))
    && (c.closed ==> In !in c.events && Pri !in c.events)
  }

  /** What a connection never takes back. */
  ghost predicate Forward(c: Conn, d: Conn) {
    && (c.state != Connecting ==> d.state != Connecting)
    && (c.closed ==> d.closed)
  }

  function Queue(l: Loop): seq<Task> {
    l.batch + l.pending
  }

  /** A queued task is in the right loop, and its connection is far enough for it. */
  ghost predicate TaskFits(y: Server, l: LoopId, task: Task) {
    && task.c in y.peers
    && var p := y.peers[task.c];
       match task
       case Establish(_) => p.home == l
       case RemoveInLoop(_) => l == BASE && p.conn.closed && p.conn.state != Connecting
       case Destroy(_) => p.home == l && p.conn.closed && p.conn.state != Connecting
       case _ => p.home == l && p.conn.state != Connecting
  }

  /** A callback still to run belongs to an open connection of this loop; one that reads, to a
      connection that is not down. */
  ghost predicate HandlerFits(y: Server, l: LoopId, e: (ConnId, Handler)) {
    && e.0 in y.peers && y.peers[e.0].home == l && Open(y.peers[e.0].conn.state)
    && (e.1 == OnRead ==> !EndsWithDown(y.peers[e.0].conn.trace))
  }

  ghost predicate LoopsSound(y: Server) {
    && BASE in y.loops && y.dispatch.Keys == y.loops.Keys
    && (forall l :: l in y.loops ==> EventLoops.Sound(y.loops[l]))
    && (forall l :: l in y.loops && y.dispatch[l] != [] ==> y.loops[l].phase == EventLoops.Dispatching)
  }

  ghost predicate QueuesFit(y: Server) {
    && (forall l, task :: l in y.loops && task in Queue(y.loops[l]) ==> TaskFits(y, l, task))
    && (forall l, e :: l in y.loops && l in y.dispatch && e in y.dispatch[l] ==> HandlerFits(y, l, e))
  }

  /** Exactly one establishing task waits for a connecting connection, none for any other. */
  ghost predicate EstablishedOnce(y: Server, c: ConnId)
    requires c in y.peers
  {
    y.peers[c].home in y.loops
    && multiset(Queue(y.loops[y.peers[c].home]))[Establish(c)] == if y.peers[c].conn.state == Connecting then 1 else 0
  }

  ghost predicate PeersSound(y: Server) {
    forall c :: c in y.peers ==> c < y.nextConnId && ConnSound(y.peers[c].conn) && EstablishedOnce(y, c)
  }

  /** Only an established connection passes the test, and it stays established. */
  ghost predicate StagesFit(y: Server) {
    forall t :: t in y.stage ==> y.stage[t].c in y.peers && y.peers[y.stage[t].c].conn.state != Connecting
  }

  ghost predicate Sound(y: Server) {
    LoopsSound(y) && QueuesFit(y) && PeersSound(y) && StagesFit(y) && !y.failed
  }

  // ---- one connection ----

  lemma SnocShape(trace: seq<Callback>, e: Callback)
    requires Shape(trace) && trace != [] && !EndsWithDown(trace) && (e.Message? || e == Down)
    ensures Shape(trace + [e]) && (e == Down <==> EndsWithDown(trace + [e]))
  {
    assert trace[0] == Up && OnlyMessages(trace[1..]);
    assert (trace + [e])[1..] == trace[1..] + [e];
    assert (trace + [e])[1..|trace|] == trace[1..];
  }

  lemma SendSound(c: Conn, message: string, w: WriteResult)
    requires ConnSound(c) && CanAnswer(w, message)
    requires c.state != Connecting
    ensures ConnSound(SendInLoop(c, message, w)) && Forward(c, SendInLoop(c, message, w))
    ensures SendInLoop(c, message, w).state == c.state && SendInLoop(c, message, w).trace == c.trace
  {
    hide Shape, EndsWithDown;
    if c.state != Disconnected && !(c.Direct() && Fatal(w)) {
      SendInLoopFields(c, message, w);
      hide SendInLoop;
    }
  }

  lemma HandlersSound(c: Conn, w: WriteResult, r: ReadResult)
    requires ConnSound(c) && Open(c.state)
    ensures CanAnswer(w, c.output) ==>
              ConnSound(HandleWrite(c, w)) && HandleWrite(c, w).state == c.state
              && HandleWrite(c, w).trace == c.trace && Forward(c, HandleWrite(c, w))
    ensures ConnSound(HandleClose(c)) && HandleClose(c).state == c.state && HandleClose(c).trace == c.trace
    ensures r.Data? && r.bytes != "" && !EndsWithDown(c.trace) ==>
              ConnSound(HandleRead(c, r)) && HandleRead(c, r).state == c.state && Forward(c, HandleRead(c, r))
              && !EndsWithDown(HandleRead(c, r).trace)
  {
    WriteSound(c, w);
    if r.Data? && r.bytes != "" && !EndsWithDown(c.trace) {
      SnocShape(c.trace, Message(r.bytes));
    }
    hide Shape, EndsWithDown, HandleWrite;
  }

  lemma WriteSound(c: Conn, w: WriteResult)
    requires ConnSound(c) && Open(c.state)
    ensures CanAnswer(w, c.output) ==>
              ConnSound(HandleWrite(c, w)) && HandleWrite(c, w).state == c.state
              && HandleWrite(c, w).trace == c.trace && Forward(c, HandleWrite(c, w))
  {
    hide Shape, EndsWithDown;
  }

  lemma OtherSound(c: Conn)
    requires ConnSound(c)
    ensures ConnSound(Shutdown(c)) && Forward(c, Shutdown(c)) && Shutdown(c).trace == c.trace
    ensures ConnSound(ShutdownInLoop(c)) && Forward(c, ShutdownInLoop(c))
    ensures c.closed ==> ConnSound(ConnectDestroyed(c)) && Forward(c, ConnectDestroyed(c))
    ensures c.state == Connecting ==> ConnSound(ConnectEstablished(c)) && ConnectEstablished(c).state == Connected
                                      && Forward(c, ConnectEstablished(c))
    ensures c.state != Connecting ==> ConnSound(c.(state := Disconnecting)) && Forward(c, c.(state := Disconnecting))
  {
    if c.state == Connected {
      SnocShape(c.trace, Down);
    }
    assert c.state == Connecting ==> (c.trace + [Up])[1..] == [];
  }

  // ---- changing one connection ----

  /** What `Update` may do to a connection that callbacks or tasks refer to. */
  ghost predicate Keeps(y: Server, c: ConnId, d: Conn)
    requires c in y.peers
  {
    && ConnSound(d) && Forward(y.peers[c].conn, d)
    && (y.peers[c].conn.state == Connecting ==> d.state == Connecting)
    && (forall l, e :: l in y.dispatch && e in y.dispatch[l] && e.0 == c && l in y.loops ==>
          Open(d.state) && (e.1 == OnRead ==> !EndsWithDown(d.trace)))
  }

  lemma UpdateKeepsSound(y: Server, c: ConnId, d: Conn)
    requires Sound(y) && c in y.peers && Keeps(y, c, d)
    ensures Sound(Update(y, c, d))
  {
    hide ConnSound, EventLoops.Sound, EndsWithDown, Open, QueuesFit, PeersSound;
    UpdatedQueues(y, c, d);
    UpdatedPeers(y, c, d);
  }

  lemma UpdatedQueues(y: Server, c: ConnId, d: Conn)
    requires QueuesFit(y) && c in y.peers && Keeps(y, c, d)
    ensures QueuesFit(Update(y, c, d))
  {
    hide ConnSound, EndsWithDown, Queue, Open;
    var z := Update(y, c, d);
    forall l, task | l in z.loops && task in Queue(z.loops[l]) ensures TaskFits(z, l, task) {
      assert TaskFits(y, l, task);
    }
    forall l, e | l in z.loops && l in z.dispatch && e in z.dispatch[l] ensures HandlerFits(z, l, e) {
      assert HandlerFits(y, l, e);
    }
  }

  lemma UpdatedPeers(y: Server, c: ConnId, d: Conn)
    requires PeersSound(y) && c in y.peers && Keeps(y, c, d)
    ensures PeersSound(Update(y, c, d))
  {
    hide ConnSound, EndsWithDown, Queue, Open;
    var z := Update(y, c, d);
    forall b | b in z.peers ensures EstablishedOnce(z, b) {
      assert EstablishedOnce(y, b);
    }
  }

  // ---- queueing and running tasks ----

  /** A loop whose queue got one more task at the end. */
  lemma QueueGrows(y: Server, target: LoopId, m: Loop, task: Task)
    requires Sound(y) && target in y.loops && EventLoops.Sound(m) && m.phase == y.loops[target].phase
    requires Queue(m) == Queue(y.loops[target]) + [task] && TaskFits(y, target, task) && !task.Establish?
    ensures Sound(y.(loops := y.loops[target := m]))
  {
    hide EventLoops.Sound, Queue, QueuesFit, PeersSound, TaskFits;
    var z := y.(loops := y.loops[target := m]);
    GrownQueues(y, z, target, task);
    GrownPeers(y, z, target, task);
  }

  lemma GrownQueues(y: Server, z: Server, target: LoopId, task: Task)
    requires QueuesFit(y) && target in y.loops && target in z.loops && TaskFits(y, target, task)
    requires z == y.(loops := y.loops[target := z.loops[target]])
    requires Queue(z.loops[target]) == Queue(y.loops[target]) + [task]
    ensures QueuesFit(z)
  {
    hide Queue, EndsWithDown, Open;
    forall l, u | l in z.loops && u in Queue(z.loops[l]) ensures TaskFits(z, l, u) {
      assert l == target && u !in Queue(y.loops[target]) ==> u == task;
      assert TaskFits(y, l, u);
    }
    forall l, e | l in z.loops && l in z.dispatch && e in z.dispatch[l] ensures HandlerFits(z, l, e) {
      assert HandlerFits(y, l, e);
    }
  }

  lemma GrownPeers(y: Server, z: Server, target: LoopId, task: Task)
    requires PeersSound(y) && target in y.loops && target in z.loops && !task.Establish?
    requires z == y.(loops := y.loops[target := z.loops[target]])
    requires Queue(z.loops[target]) == Queue(y.loops[target]) + [task]
    ensures PeersSound(z)
  {
    hide ConnSound, Queue;
    assert multiset(Queue(z.loops[target])) == multiset(Queue(y.loops[target])) + multiset{task};
    forall b | b in z.peers ensures EstablishedOnce(z, b) {
      assert EstablishedOnce(y, b);
    }
  }

  lemma PostKeepsSound(y: Server, target: LoopId, who: EventLoops.Thread, task: Task)
    requires Sound(y) && CanPost(y, target, who, task) && TaskFits(y, target, task) && !task.Establish?
    ensures Sound(Post(y, target, who, task))
  {
    PushedQueue(y.loops[target], who, task);
    hide EventLoops.Sound, EventLoops.Apply, QueuesFit, PeersSound, TaskFits, Queue;
    QueueGrows(y, target, EventLoops.Apply(y.loops[target], EventLoops.Push(who, task)), task);
  }

  lemma PushedQueue(l: Loop, who: EventLoops.Thread, task: Task)
    requires EventLoops.Sound(l) && EventLoops.Enabled(l, EventLoops.Push(who, task))
    ensures var m := EventLoops.Apply(l, EventLoops.Push(who, task));
            EventLoops.Sound(m) && m.phase == l.phase && Queue(m) == Queue(l) + [task]
  {
    EventLoops.StepKeepsSound(l, EventLoops.Push(who, task));
    hide EventLoops.Sound;
    assert l.batch + (l.pending + [task]) == l.batch + l.pending + [task];
  }

  lemma RemoveKeepsSound(y: Server, l: LoopId, c: ConnId)
    requires Sound(y) && CanRemove(y, l, c) && c in y.peers
    requires y.peers[c].conn.closed && y.peers[c].conn.state != Connecting
    ensures Sound(RemovePeer(y, l, c))
  {
    hide ConnSound, EventLoops.Sound;
    if l == BASE {
      RemoveNowKeepsSound(y, c);
    } else {
      PostKeepsSound(y, BASE, EventLoops.Other(l), RemoveInLoop(c));
    }
  }

  lemma RemoveNowKeepsSound(y: Server, c: ConnId)
    requires Sound(y) && CanRemoveNow(y, c)
    requires y.peers[c].conn.closed && y.peers[c].conn.state != Connecting
    ensures Sound(RemoveNow(y, c))
  {
    hide QueuesFit, PeersSound, LoopsSound, EventLoops.Enabled;
    var z := y.(connections := y.connections - {c});
    MapAndStagesAside(y, z);
    hide Sound;
    PostKeepsSound(z, y.peers[c].home, ThreadOf(BASE, y.peers[c].home), Destroy(c));
  }

  /** What is queued, and for whom, is all that counts for the tasks. */
  ghost predicate SameQueues(y: Server, z: Server) {
    && z.loops.Keys == y.loops.Keys && z.peers == y.peers && z.nextConnId == y.nextConnId
    && forall l :: l in y.loops ==> Queue(z.loops[l]) == Queue(y.loops[l])
  }

  lemma SameQueuesFit(y: Server, z: Server)
    requires QueuesFit(y) && SameQueues(y, z) && z.dispatch == y.dispatch
    ensures QueuesFit(z)
  {
    hide Queue, EndsWithDown, Open;
    forall l, task | l in z.loops && task in Queue(z.loops[l]) ensures TaskFits(z, l, task) {
      assert TaskFits(y, l, task);
    }
    forall l, e | l in z.loops && l in z.dispatch && e in z.dispatch[l] ensures HandlerFits(z, l, e) {
      assert HandlerFits(y, l, e);
    }
  }

  lemma SameQueuesPeers(y: Server, z: Server)
    requires PeersSound(y) && SameQueues(y, z)
    ensures PeersSound(z)
  {
    hide Queue, ConnSound;
    forall b | b in z.peers ensures EstablishedOnce(z, b) {
      assert EstablishedOnce(y, b);
    }
  }

  lemma MapAndStagesAside(y: Server, z: Server)
    requires Sound(y) && z == y.(connections := z.connections, stage := z.stage) && StagesFit(z)
    ensures Sound(z)
  {
    hide EventLoops.Sound, QueuesFit, PeersSound;
    SameQueuesFit(y, z);
    SameQueuesPeers(y, z);
  }

  /** A loop replaced by one with the same queue. */
  lemma QuietMoveKeepsSound(y: Server, l: LoopId, m: Loop)
    requires Sound(y) && l in y.loops && EventLoops.Sound(m) && Queue(m) == Queue(y.loops[l])
    requires y.dispatch[l] != [] ==> m.phase == EventLoops.Dispatching
    ensures Sound(y.(loops := y.loops[l := m]))
  {
    hide EventLoops.Sound, QueuesFit, PeersSound, Queue;
    var z := y.(loops := y.loops[l := m]);
    SameQueuesFit(y, z);
    SameQueuesPeers(y, z);
  }

  lemma LoopMoveKeepsSound(y: Server, l: LoopId, m: EventLoops.Step<Task>)
    requires Sound(y) && Enabled(y, LoopMove(l, m))
    ensures Sound(Apply(y, LoopMove(l, m)))
  {
    hide QueuesFit, PeersSound, StagesFit, EventLoops.Sound, EventLoops.Apply;
    EventLoops.StepKeepsSound(y.loops[l], m);
    QuietQueue(y.loops[l], m);
    if y.loops[l].phase == EventLoops.Dispatching && !m.BeginCalling? {
      LeavesDispatching(y.loops[l], m);
    }
    QuietMoveKeepsSound(y, l, EventLoops.Apply(y.loops[l], m));
  }

  lemma QuietQueue(l: Loop, m: EventLoops.Step<Task>)
    requires EventLoops.Sound(l) && EventLoops.Enabled(l, m) && (Plain(m) || m.PollReturns?)
    ensures Queue(EventLoops.Apply(l, m)) == Queue(l)
  {
  }

  /** Dispatching ends with the functors only. */
  lemma LeavesDispatching(l: Loop, m: EventLoops.Step<Task>)
    requires EventLoops.Enabled(l, m) && l.phase == EventLoops.Dispatching && !m.BeginCalling?
    ensures EventLoops.Apply(l, m).phase == EventLoops.Dispatching
  {
  }

  /** A registered connection is open, and one still read from is not down. */
  lemma HandlersFit(y: Server, l: LoopId, r: Ready)
    requires Sound(y) && Reported(y, l, r)
    ensures forall e :: e in Handlers(r) ==> HandlerFits(y, l, e)
  {
    hide Sound, ConnSound, EndsWithDown, Open, EventLoops.Sound;
    PeerSound(y, r.c);
    RegisteredIsOpen(y.peers[r.c].conn);
    forall e | e in Handlers(r) ensures HandlerFits(y, l, e) {
      assert e.0 == r.c && (e.1 == OnRead ==> Reports(In) in r.revents || Reports(Pri) in r.revents);
    }
  }

  lemma RegisteredIsOpen(c: Conn)
    requires ConnSound(c) && c.registered
    ensures Open(c.state) && (In in c.events || Pri in c.events ==> !EndsWithDown(c.trace))
  {
    hide Shape, EndsWithDown;
  }

  lemma {:induction false} AllHandlersFit(y: Server, l: LoopId, ready: seq<Ready>)
    requires Sound(y) && forall i :: 0 <= i < |ready| ==> Reported(y, l, ready[i])
    ensures forall e :: e in AllHandlers(ready) ==> HandlerFits(y, l, e)
    decreases |ready|
  {
    hide Sound, HandlerFits, Handlers, Reported;
    if ready != [] {
      HandlersFit(y, l, ready[0]);
      AllHandlersFit(y, l, ready[1..]);
    }
  }

  lemma NewDispatchKeepsSound(y: Server, l: LoopId, es: seq<(ConnId, Handler)>)
    requires Sound(y) && l in y.loops && (es != [] ==> y.loops[l].phase == EventLoops.Dispatching)
    requires forall e :: e in es ==> HandlerFits(y, l, e)
    ensures Sound(y.(dispatch := y.dispatch[l := es]))
  {
    hide EventLoops.Sound, LoopsSound, QueuesFit, PeersSound, HandlerFits, Queue;
    var z := y.(dispatch := y.dispatch[l := es]);
    NewDispatchLoops(y, z, l);
    NewDispatchQueues(y, z, l);
    SameQueuesPeers(y, z);
  }

  lemma NewDispatchLoops(y: Server, z: Server, l: LoopId)
    requires LoopsSound(y) && l in y.loops && l in z.dispatch && z == y.(dispatch := y.dispatch[l := z.dispatch[l]])
    requires z.dispatch[l] != [] ==> y.loops[l].phase == EventLoops.Dispatching
    ensures LoopsSound(z)
  {
    hide EventLoops.Sound;
    assert z.dispatch.Keys == y.dispatch.Keys;
  }

  lemma NewDispatchQueues(y: Server, z: Server, l: LoopId)
    requires QueuesFit(y) && l in z.dispatch && z == y.(dispatch := y.dispatch[l := z.dispatch[l]])
    requires forall e :: e in z.dispatch[l] ==> HandlerFits(y, l, e)
    ensures QueuesFit(z)
  {
    hide Queue, EndsWithDown, Open;
    forall k, task | k in z.loops && task in Queue(z.loops[k]) ensures TaskFits(z, k, task) {
      assert TaskFits(y, k, task);
    }
    forall k, e | k in z.loops && k in z.dispatch && e in z.dispatch[k] ensures HandlerFits(z, k, e) {
      assert HandlerFits(y, k, e);
    }
  }

  lemma PollKeepsSound(y: Server, l: LoopId, ready: seq<Ready>)
    requires Sound(y) && Enabled(y, PollReturns(l, ready))
    ensures Sound(Apply(y, PollReturns(l, ready)))
  {
    EventLoops.StepKeepsSound(y.loops[l], EventLoops.PollReturns);
    var m := EventLoops.Apply(y.loops[l], EventLoops.PollReturns);
    QuietMoveKeepsSound(y, l, m);
    AllHandlersFit(y, l, ready);
    var z := y.(loops := y.loops[l := m]);
    assert forall e :: HandlerFits(y, l, e) ==> HandlerFits(z, l, e);
    hide Sound, HandlerFits, EventLoops.Sound;
    NewDispatchKeepsSound(z, l, AllHandlers(ready));
  }

  lemma HandlerKeepsSound(y: Server, l: LoopId, r: ReadResult, w: WriteResult)
    requires Enabled(y, RunHandler(l, r, w))
    requires Sound(y)
    ensures Sound(Apply(y, RunHandler(l, r, w)))
  {
    hide EventLoops.Sound, EventLoops.Enabled, PeersSound, Handle, Queue, Shape, EndsWithDown;
    var es := y.dispatch[l];
    forall e | e in es[1..] ensures HandlerFits(y, l, e) {
      assert e in es;
    }
    assert HandlerFits(y, l, es[0]);
    hide QueuesFit;
    NewDispatchKeepsSound(y, l, es[1..]);
    HandleKeepsSound(y.(dispatch := y.dispatch[l := es[1..]]), l, es[0].0, es[0].1, r, w);
  }

  lemma HandleKeepsSound(y: Server, l: LoopId, c: ConnId, h: Handler, r: ReadResult, w: WriteResult)
    requires Sound(y) && HandlerFits(y, l, (c, h))
    requires Closes(h, r) ==> CanRemove(y, l, c)
    requires h == OnWrite ==> CanAnswer(w, y.peers[c].conn.output)
    ensures Sound(Handle(y, l, c, h, r, w))
  {
    hide EventLoops.Sound, EventLoops.Enabled, Shape, EndsWithDown, HandleWrite, Sound, ConnSound;
    hide RemovePeer, CanRemove;
    var conn := y.peers[c].conn;
    PeerSound(y, c);
    HandlersSound(conn, w, r);
    if h == OnWrite {
      SameStateKeepsSound(y, c, HandleWrite(conn, w));
    } else if Closes(h, r) {
      CloseKeepsSound(y, l, c);
    } else if h == OnRead && r.Data? {
      SameStateKeepsSound(y, c, HandleRead(conn, r));
    }
  }

  lemma PeerSound(y: Server, c: ConnId)
    requires Sound(y) && c in y.peers
    ensures ConnSound(y.peers[c].conn)
  {
    hide ConnSound, LoopsSound, QueuesFit;
  }

  lemma CloseSound(c: Conn)
    requires ConnSound(c) && Open(c.state)
    ensures var d := HandleClose(c);
            ConnSound(d) && Forward(c, d) && d.closed && d.state == c.state && d.trace == c.trace
  {
    hide Shape, EndsWithDown;
  }

  /** A change that leaves the state, and whether the connection is down, as they are. */
  lemma SameStateKeepsSound(y: Server, c: ConnId, d: Conn)
    requires Sound(y) && c in y.peers && ConnSound(d) && Forward(y.peers[c].conn, d)
    requires d.state == y.peers[c].conn.state && (EndsWithDown(d.trace) ==> EndsWithDown(y.peers[c].conn.trace))
    ensures Sound(Update(y, c, d))
  {
    hide EventLoops.Sound, ConnSound, EndsWithDown, LoopsSound, PeersSound, TaskFits, Queue;
    assert forall k, e :: k in y.loops && k in y.dispatch && e in y.dispatch[k] ==> HandlerFits(y, k, e);
    hide Sound;
    UpdateKeepsSound(y, c, d);
  }

  lemma CloseKeepsSound(y: Server, l: LoopId, c: ConnId)
    requires Sound(y) && c in y.peers && Open(y.peers[c].conn.state) && CanRemove(y, l, c)
    ensures CanRemove(Update(y, c, HandleClose(y.peers[c].conn)), l, c)
    ensures Sound(RemovePeer(Update(y, c, HandleClose(y.peers[c].conn)), l, c))
  {
    hide Sound, ConnSound, EndsWithDown, EventLoops.Enabled, EventLoops.Apply, RemovePeer;
    var conn := y.peers[c].conn;
    PeerSound(y, c);
    CloseSound(conn);
    SameStateKeepsSound(y, c, HandleClose(conn));
    hide HandleClose;
    RemoveKeepsSound(Update(y, c, HandleClose(conn)), l, c);
  }

  /** A loop whose queue lost its first task. */
  lemma QueueShrinks(y: Server, l: LoopId, m: Loop, task: Task)
    requires Sound(y) && l in y.loops && EventLoops.Sound(m) && m.phase == y.loops[l].phase
    requires Queue(y.loops[l]) == [task] + Queue(m) && !task.Establish?
    ensures Sound(y.(loops := y.loops[l := m])) && TaskFits(y.(loops := y.loops[l := m]), l, task)
  {
    hide EventLoops.Sound, Queue, QueuesFit, PeersSound, TaskFits;
    var z := y.(loops := y.loops[l := m]);
    ShrunkQueues(y, z, l, task);
    ShrunkPeers(y, z, l, task);
  }

  lemma ShrunkQueues(y: Server, z: Server, l: LoopId, task: Task)
    requires QueuesFit(y) && l in y.loops && l in z.loops && z == y.(loops := y.loops[l := z.loops[l]])
    requires Queue(y.loops[l]) == [task] + Queue(z.loops[l])
    ensures QueuesFit(z) && TaskFits(z, l, task)
  {
    hide Queue, EndsWithDown, Open;
    assert task in Queue(y.loops[l]);
    assert TaskFits(y, l, task);
    forall k, u | k in z.loops && u in Queue(z.loops[k]) ensures TaskFits(z, k, u) {
      assert TaskFits(y, k, u);
    }
    forall k, e | k in z.loops && k in z.dispatch && e in z.dispatch[k] ensures HandlerFits(z, k, e) {
      assert HandlerFits(y, k, e);
    }
  }

  lemma ShrunkPeers(y: Server, z: Server, l: LoopId, task: Task)
    requires PeersSound(y) && l in y.loops && l in z.loops && z == y.(loops := y.loops[l := z.loops[l]])
    requires Queue(y.loops[l]) == [task] + Queue(z.loops[l]) && !task.Establish?
    ensures PeersSound(z)
  {
    hide ConnSound, Queue;
    assert multiset(Queue(y.loops[l])) == multiset{task} + multiset(Queue(z.loops[l]));
    forall b | b in z.peers ensures EstablishedOnce(z, b) {
      assert EstablishedOnce(y, b);
    }
  }

  lemma TakenQueue(l: Loop)
    requires EventLoops.Sound(l) && EventLoops.Enabled(l, EventLoops.RunNext)
    ensures var m := EventLoops.Apply(l, EventLoops.RunNext);
            EventLoops.Sound(m) && m.phase == l.phase == EventLoops.Batch && Queue(l) == [l.batch[0]] + Queue(m)
  {
    EventLoops.StepKeepsSound(l, EventLoops.RunNext);
    hide EventLoops.Sound;
    assert l.batch == [l.batch[0]] + l.batch[1..];
  }

  /** No callback of a connection is left while its home loop runs tasks. */
  lemma NoHandlersInBatch(y: Server, c: ConnId)
    requires Sound(y) && c in y.peers && y.peers[c].home in y.loops
    requires y.loops[y.peers[c].home].phase == EventLoops.Batch
    ensures forall l, e :: l in y.loops && l in y.dispatch && e in y.dispatch[l] ==> e.0 != c
  {
    hide ConnSound, EventLoops.Sound;
    forall l, e | l in y.loops && l in y.dispatch && e in y.dispatch[l] ensures e.0 != c {
      assert HandlerFits(y, l, e);
    }
  }

  lemma TaskKeepsSound(y: Server, l: LoopId, w: WriteResult)
    requires Sound(y) && HasTask(y, l) && CanExecute(Taken(y, l), y.loops[l].batch[0], w)
    requires !y.loops[l].batch[0].Establish?
    ensures Sound(Execute(Taken(y, l), y.loops[l].batch[0], w))
  {
    hide EventLoops.Sound, EventLoops.Apply, QueuesFit, PeersSound, TaskFits, Queue, Execute, CanExecute;
    TakenQueue(y.loops[l]);
    QueueShrinks(y, l, EventLoops.Apply(y.loops[l], EventLoops.RunNext), y.loops[l].batch[0]);
    ExecuteKeepsSound(Taken(y, l), l, y.loops[l].batch[0], w);
  }

  lemma ExecuteKeepsSound(y: Server, l: LoopId, task: Task, w: WriteResult)
    requires Sound(y) && TaskFits(y, l, task) && !task.Establish?
    requires l in y.loops && y.loops[l].phase == EventLoops.Batch && CanExecute(y, task, w)
    ensures Sound(Execute(y, task, w))
  {
    hide EventLoops.Sound, Shape, EndsWithDown, Queue, SendInLoop, ShutdownInLoop, ConnectDestroyed;
    var conn := y.peers[task.c].conn;
    assert ConnSound(conn);
    hide ConnSound;
    if task.RemoveInLoop? {
      RemoveNowKeepsSound(y, task.c);
    } else {
      NoHandlersInBatch(y, task.c);
      OtherSound(conn);
      if task.SendTask? {
        SendSound(conn, task.message, w);
        UpdateKeepsSound(y, task.c, SendInLoop(conn, task.message, w));
      } else if task.ShutdownTask? {
        UpdateKeepsSound(y, task.c, ShutdownInLoop(conn));
      } else {
        UpdateKeepsSound(y, task.c, ConnectDestroyed(conn));
      }
    }
  }

  /** The establishing task finds its connection connecting, and is the only one. */
  lemma EstablishKeepsSound(y: Server, l: LoopId, w: WriteResult)
    requires Sound(y) && HasTask(y, l) && CanExecute(Taken(y, l), y.loops[l].batch[0], w)
    requires y.loops[l].batch[0].Establish?
    ensures Sound(Execute(Taken(y, l), y.loops[l].batch[0], w))
  {
    hide EventLoops.Sound, EventLoops.Apply, QueuesFit, PeersSound, Queue, ConnSound, ConnectEstablished, TaskFits;
    TakenQueue(y.loops[l]);
    var m, task := EventLoops.Apply(y.loops[l], EventLoops.RunNext), y.loops[l].batch[0];
    WasConnecting(y, l, m, task.c);
    EstablishedNow(y, l, m, task.c);
  }

  lemma WasConnecting(y: Server, l: LoopId, m: Loop, c: ConnId)
    requires Sound(y) && l in y.loops && Queue(y.loops[l]) == [Establish(c)] + Queue(m)
    ensures c in y.peers && y.peers[c].home == l && y.peers[c].conn.state == Connecting && Establish(c) !in Queue(m)
  {
    hide EventLoops.Sound, ConnSound, Queue;
    assert Establish(c) in Queue(y.loops[l]);
    assert TaskFits(y, l, Establish(c)) && EstablishedOnce(y, c);
    assert multiset(Queue(y.loops[l])) == multiset{Establish(c)} + multiset(Queue(m));
    assert multiset(Queue(m))[Establish(c)] == 0;
  }

  lemma EstablishedNow(y: Server, l: LoopId, m: Loop, c: ConnId)
    requires Sound(y) && l in y.loops && EventLoops.Sound(m) && m.phase == y.loops[l].phase == EventLoops.Batch
    requires Queue(y.loops[l]) == [Establish(c)] + Queue(m) && Establish(c) !in Queue(m)
    requires c in y.peers && y.peers[c].home == l && y.peers[c].conn.state == Connecting
    ensures Sound(y.(loops := y.loops[l := m],
                     peers := y.peers[c := Peer(ConnectEstablished(y.peers[c].conn), l)]))
  {
    var d := ConnectEstablished(y.peers[c].conn);
    EstablishedSound(y, c);
    NoHandlersInBatch(y, c);
    hide ConnSound, EventLoops.Sound, Queue, ConnectEstablished, QueuesFit, PeersSound, LoopsSound, Forward, StagesFit;
    var z := y.(loops := y.loops[l := m], peers := y.peers[c := Peer(d, l)]);
    assert z.loops[l] == m && z.peers[c] == Peer(d, l);
    EstablishedLoops(y, z, l);
    EstablishedQueues(y, z, l, c);
    EstablishedPeers(y, z, l, c);
    EstablishedStages(y, z, c);
  }

  lemma EstablishedStages(y: Server, z: Server, c: ConnId)
    requires StagesFit(y) && c in z.peers && z.peers == y.peers[c := z.peers[c]] && z.stage == y.stage
    requires z.peers[c].conn.state != Connecting
    ensures StagesFit(z)
  {
  }

  lemma EstablishedSound(y: Server, c: ConnId)
    requires PeersSound(y) && c in y.peers && y.peers[c].conn.state == Connecting
    ensures var d := ConnectEstablished(y.peers[c].conn);
            ConnSound(d) && d.state == Connected && Forward(y.peers[c].conn, d)
  {
    OtherSound(y.peers[c].conn);
  }

  lemma EstablishedLoops(y: Server, z: Server, l: LoopId)
    requires LoopsSound(y) && l in y.loops && l in z.loops
    requires z.loops == y.loops[l := z.loops[l]] && z.dispatch == y.dispatch
    requires EventLoops.Sound(z.loops[l]) && z.loops[l].phase == y.loops[l].phase
    ensures LoopsSound(z)
  {
    hide EventLoops.Sound;
  }

  lemma EstablishedQueues(y: Server, z: Server, l: LoopId, c: ConnId)
    requires QueuesFit(y) && l in y.loops && l in z.loops && c in y.peers
    requires z == y.(loops := y.loops[l := z.loops[l]], peers := z.peers)
    requires c in z.peers && z.peers == y.peers[c := z.peers[c]]
    requires z.peers[c].home == y.peers[c].home && Forward(y.peers[c].conn, z.peers[c].conn)
    requires forall u :: u in Queue(z.loops[l]) ==> u in Queue(y.loops[l])
    requires forall k, e :: k in y.loops && k in y.dispatch && e in y.dispatch[k] ==> e.0 != c
    ensures QueuesFit(z)
  {
    hide Queue, EndsWithDown, Open;
    forall k, u | k in z.loops && u in Queue(z.loops[k]) ensures TaskFits(z, k, u) {
      assert TaskFits(y, k, u);
    }
    forall k, e | k in z.loops && k in z.dispatch && e in z.dispatch[k] ensures HandlerFits(z, k, e) {
      assert HandlerFits(y, k, e);
    }
  }

  lemma EstablishedPeers(y: Server, z: Server, l: LoopId, c: ConnId)
    requires PeersSound(y) && l in y.loops && l in z.loops && c in y.peers && y.peers[c].home == l
    requires c in z.peers && z == y.(loops := y.loops[l := z.loops[l]], peers := y.peers[c := Peer(z.peers[c].conn, l)])
    requires ConnSound(z.peers[c].conn) && z.peers[c].conn.state != Connecting
    requires Queue(y.loops[l]) == [Establish(c)] + Queue(z.loops[l]) && Establish(c) !in Queue(z.loops[l])
    ensures PeersSound(z)
  {
    hide Queue, ConnSound;
    assert multiset(Queue(y.loops[l])) == multiset{Establish(c)} + multiset(Queue(z.loops[l]));
    forall b | b in z.peers ensures EstablishedOnce(z, b) {
      assert EstablishedOnce(y, b);
    }
  }

  /** A new connection: already established on the base loop, or with its task queued at home. */
  lemma NewPeerKeepsSound(y: Server, home: LoopId, m: Loop, conn: Conn)
    requires Sound(y) && home in y.loops && EventLoops.Sound(m) && m.phase == y.loops[home].phase && ConnSound(conn)
    requires if conn.state == Connecting then Queue(m) == Queue(y.loops[home]) + [Establish(y.nextConnId)]
             else Queue(m) == Queue(y.loops[home])
    ensures var c := y.nextConnId;
            Sound(y.(loops := y.loops[home := m], peers := y.peers[c := Peer(conn, home)],
                     connections := y.connections + {c}, nextConnId := c + 1))
  {
    hide ConnSound, EventLoops.Sound, Queue, QueuesFit, PeersSound, StagesFit;
    var c := y.nextConnId;
    FreshId(y, c);
    var z := y.(loops := y.loops[home := m], peers := y.peers[c := Peer(conn, home)],
                connections := y.connections + {c}, nextConnId := c + 1);
    NewPeerQueues(y, z, home, c);
    NewPeerPeers(y, z, home, c);
    NewPeerStages(y, z, c);
  }

  lemma NewPeerStages(y: Server, z: Server, c: ConnId)
    requires StagesFit(y) && c in z.peers && c !in y.peers && z.peers == y.peers[c := z.peers[c]] && z.stage == y.stage
    ensures StagesFit(z)
  {
  }

  lemma NewPeerQueues(y: Server, z: Server, home: LoopId, c: ConnId)
    requires QueuesFit(y) && home in y.loops && home in z.loops && c in z.peers && z.peers[c].home == home
    requires c !in y.peers && z.peers == y.peers[c := z.peers[c]]
    requires z.loops == y.loops[home := z.loops[home]] && z.dispatch == y.dispatch
    requires forall u :: u in Queue(z.loops[home]) ==> u in Queue(y.loops[home]) || u == Establish(c)
    ensures QueuesFit(z)
  {
    hide Queue, EndsWithDown, Open;
    forall k, u | k in z.loops && u in Queue(z.loops[k]) ensures TaskFits(z, k, u) {
      assert u in Queue(y.loops[k]) ==> TaskFits(y, k, u);
    }
    forall k, e | k in z.loops && k in z.dispatch && e in z.dispatch[k] ensures HandlerFits(z, k, e) {
      assert HandlerFits(y, k, e);
    }
  }

  lemma NewPeerPeers(y: Server, z: Server, home: LoopId, c: ConnId)
    requires PeersSound(y) && QueuesFit(y) && home in y.loops && home in z.loops && c in z.peers
    requires c == y.nextConnId && z.nextConnId == c + 1 && z.peers == y.peers[c := z.peers[c]]
    requires z.loops == y.loops[home := z.loops[home]] && z.peers[c].home == home && ConnSound(z.peers[c].conn)
    requires if z.peers[c].conn.state == Connecting then Queue(z.loops[home]) == Queue(y.loops[home]) + [Establish(c)]
             else Queue(z.loops[home]) == Queue(y.loops[home])
    ensures PeersSound(z)
  {
    hide Queue, ConnSound, HandlerFits;
    assert c !in y.peers;
    assert Establish(c) in Queue(y.loops[home]) ==> TaskFits(y, home, Establish(c));
    hide QueuesFit;
    assert z.peers[c].conn.state == Connecting ==>
             multiset(Queue(z.loops[home])) == multiset(Queue(y.loops[home])) + multiset{Establish(c)};
    forall b | b in z.peers ensures EstablishedOnce(z, b) {
      assert b != c ==> EstablishedOnce(y, b);
    }
  }

  lemma AcceptKeepsSound(y: Server, home: LoopId, config: Config)
    requires Sound(y) && CanAccept(y, home)
    ensures Sound(NewConnection(y, home, config))
  {
    NewConnSound(config);
    hide EventLoops.Sound, EventLoops.Apply, QueuesFit, PeersSound, Queue, ConnSound;
    var c := y.nextConnId;
    if home == BASE {
      assert y.loops[BASE := y.loops[BASE]] == y.loops;
      NewPeerKeepsSound(y, BASE, y.loops[BASE], ConnectEstablished(NewConn(config)));
    } else {
      PushedQueue(y.loops[home], EventLoops.Other(BASE), Establish(c));
      var m := EventLoops.Apply(y.loops[home], EventLoops.Push(EventLoops.Other(BASE), Establish(c)));
      NewPeerKeepsSound(y, home, m, NewConn(config));
    }
  }

  lemma NewConnSound(config: Config)
    ensures ConnSound(NewConn(config)) && ConnSound(ConnectEstablished(NewConn(config)))
  {
    OtherSound(NewConn(config));
  }

  lemma UserKeepsSound(y: Server, s: Step)
    requires Sound(y) && Enabled(y, s)
    requires s.LoopSend? || s.LoopShutdown? || s.Consume?
    ensures Sound(Apply(y, s))
  {
    hide Sound, ConnSound, EndsWithDown, Send, Shutdown, Open;
    var conn := y.peers[s.c].conn;
    PeerSound(y, s.c);
    HandlersOf(y, s.c);
    UserSound(conn, s);
    UpdateKeepsSound(y, s.c, Apply(y, s).peers[s.c].conn);
  }

  /** What user code does to a connection. */
  lemma UserSound(c: Conn, s: Step)
    requires ConnSound(c)
    ensures s.LoopSend? && CanAnswer(s.w, s.message) ==>
              UserChange(c, Send(c, s.message, s.w))
    ensures s.LoopShutdown? ==> UserChange(c, Shutdown(c))
    ensures s.Consume? && s.n <= |c.input| ==> UserChange(c, c.(input := c.input[s.n..]))
  {
    OtherSound(c);
    if s.LoopSend? && CanAnswer(s.w, s.message) && c.state == Connected {
      SendSound(c, s.message, s.w);
    }
    hide Shape, EndsWithDown, SendInLoop;
  }

  lemma StageKeepsSound(y: Server, s: Step)
    requires Sound(y) && Enabled(y, s) && s.ForeignTest?
    ensures Sound(Apply(y, s))
  {
    hide LoopsSound, QueuesFit, PeersSound;
    MapAndStagesAside(y, Apply(y, s));
  }

  lemma SetStateKeepsSound(y: Server, t: nat)
    requires Sound(y) && Enabled(y, ForeignSetState(t))
    ensures Sound(Apply(y, ForeignSetState(t)))
  {
    hide LoopsSound, QueuesFit, PeersSound, ConnSound;
    var c := y.stage[t].c;
    var z := y.(stage := y.stage[t := StateStored(c)]);
    MapAndStagesAside(y, z);
    hide Sound;
    StoredIsFit(z, c);
    UpdateKeepsSound(z, c, z.peers[c].conn.(state := Disconnecting));
  }

  /** The callbacks that wait for it belong to an open connection, and it stays open. */
  lemma StoredIsFit(y: Server, c: ConnId)
    requires Sound(y) && c in y.peers && y.peers[c].conn.state != Connecting
    ensures Keeps(y, c, y.peers[c].conn.(state := Disconnecting))
  {
    PeerSound(y, c);
    StoredIsSound(y.peers[c].conn);
    HandlersOf(y, c);
    hide Sound, ConnSound, EndsWithDown, Open;
  }

  lemma HandlersOf(y: Server, c: ConnId)
    requires Sound(y) && c in y.peers
    ensures forall l, e :: l in y.loops && l in y.dispatch && e in y.dispatch[l] && e.0 == c ==>
              Open(y.peers[c].conn.state) && (e.1 == OnRead ==> !EndsWithDown(y.peers[c].conn.trace))
  {
    hide LoopsSound, TaskFits, PeersSound, StagesFit, EndsWithDown, Queue, Open;
    assert forall k, e :: k in y.loops && k in y.dispatch && e in y.dispatch[k] ==> HandlerFits(y, k, e);
  }

  lemma StoredIsSound(c: Conn)
    requires ConnSound(c) && c.state != Connecting
    ensures ConnSound(c.(state := Disconnecting)) && Forward(c, c.(state := Disconnecting))
    ensures Open(c.(state := Disconnecting).state)
  {
    OtherSound(c);
  }

  lemma ForeignPushKeepsSound(y: Server, t: nat)
    requires Sound(y) && Enabled(y, ForeignPush(t))
    ensures Sound(Apply(y, ForeignPush(t)))
  {
    var z := y.(stage := y.stage - {t});
    hide LoopsSound, QueuesFit, PeersSound, EventLoops.Enabled, EventLoops.Apply;
    MapAndStagesAside(y, z);
    PostKeepsSound(z, y.peers[y.stage[t].c].home, EventLoops.Other(t), TaskOf(y.stage[t]));
  }

  ghost predicate UserChange(c: Conn, d: Conn) {
    && ConnSound(d) && Forward(c, d) && d.trace == c.trace
    && (c.state == Connecting ==> d.state == Connecting)
    && (Open(c.state) ==> Open(d.state))
  }

  lemma StepKeepsSound(y: Server, s: Step)
    requires Sound(y) && Enabled(y, s)
    ensures Sound(Apply(y, s))
  {
    hide Sound;
    match s {
      case LoopMove(l, m) => LoopMoveKeepsSound(y, l, m);
      case PollReturns(l, ready) => PollKeepsSound(y, l, ready);
      case RunHandler(l, r, w) => HandlerKeepsSound(y, l, r, w);
      case RunTask(l, w) =>
        if y.loops[l].batch[0].Establish? {
          EstablishKeepsSound(y, l, w);
        } else {
          TaskKeepsSound(y, l, w);
        }
      case Accept(home, config) => AcceptKeepsSound(y, home, config);
      case ForeignTest(t, stage) => StageKeepsSound(y, s);
      case ForeignSetState(t) => SetStateKeepsSound(y, t);
      case ForeignPush(t) => ForeignPushKeepsSound(y, t);
      case _ => UserKeepsSound(y, s);
    }
  }

  lemma {:induction false} PlayKeepsSound(y: Server, steps: seq<Step>)
    requires Sound(y) && Play(y, steps).Some?
    ensures Sound(Play(y, steps).value)
    decreases |steps|
  {
    hide Sound, Apply, Enabled;
    if steps != [] {
      StepKeepsSound(y, steps[0]);
      PlayKeepsSound(Apply(y, steps[0]), steps[1..]);
    }
  }

  /** LIFECYCLE ACROSS LOOPS, over every interleaving of the loops and any other threads: the assertions
      of `connectEstablished` and `handleClose` never fail, and every connection's callback trace is one
      up, then messages, then at most one down. */
  lemma Lifecycle(ids: set<LoopId>, steps: seq<Step>)
    requires Play(NewServer(ids), steps).Some?
    ensures var y := Play(NewServer(ids), steps).value;
            && !y.failed
            && (forall c :: c in y.peers ==>
                  && Shape(y.peers[c].conn.trace)
                  && (y.peers[c].conn.state == Connecting <==> y.peers[c].conn.trace == []))
  {
    hide Apply, Enabled, LoopsSound, QueuesFit, Shape, EndsWithDown, NewServer;
    NewServerIsSound(ids);
    PlayKeepsSound(NewServer(ids), steps);
    var y := Play(NewServer(ids), steps).value;
    assert forall c :: c in y.peers ==> ConnSound(y.peers[c].conn);
  }

  lemma NewLoopIsSound()
    ensures EventLoops.Sound(EventLoops.NewLoop<Task>())
  {
  }

  /** From any reachable state, a step moves a connection's state backward in exactly one case: another
      thread's `shutdown`, which found the connection connected, stores `kDisconnecting` over
      `kDisconnected`. */
  lemma BackwardOnlyByForeignShutdown(ids: set<LoopId>, steps: seq<Step>, s: Step, c: ConnId)
    requires Play(NewServer(ids), steps).Some?
    requires Enabled(Play(NewServer(ids), steps).value, s) && c in Play(NewServer(ids), steps).value.peers
    ensures var y := Play(NewServer(ids), steps).value;
            && c in Apply(y, s).peers
            && (Rank(Apply(y, s).peers[c].conn.state) < Rank(y.peers[c].conn.state)
                <==> s.ForeignSetState? && y.stage[s.t] == ShutdownTested(c) && y.peers[c].conn.state == Disconnected)
  {
    hide Sound, Apply, NewServer, Rank;
    NewServerIsSound(ids);
    PlayKeepsSound(NewServer(ids), steps);
    StepBackward(Play(NewServer(ids), steps).value, s, c);
  }

  lemma StepBackward(y: Server, s: Step, c: ConnId)
    requires Enabled(y, s)
    requires Sound(y) && c in y.peers
    ensures c in Apply(y, s).peers
    ensures Rank(Apply(y, s).peers[c].conn.state) < Rank(y.peers[c].conn.state)
       <==> s.ForeignSetState? && y.stage[s.t] == ShutdownTested(c) && y.peers[c].conn.state == Disconnected
  {
    hide Sound, Rank;
    if s.RunHandler? {
      CallbackKeepsState(y, s.l, s.r, s.w, c);
      hide Apply, Enabled;
    } else if s.RunTask? {
      TaskMovesForward(y, s.l, s.w, c);
      hide Apply, Enabled;
    } else {
      FreshId(y, y.nextConnId);
      OtherStepsForward(y, s, c);
    }
  }

  lemma OtherStepsForward(y: Server, s: Step, c: ConnId)
    requires Enabled(y, s) && c in y.peers && y.nextConnId !in y.peers && !s.RunHandler? && !s.RunTask?
    ensures c in Apply(y, s).peers
    ensures Rank(Apply(y, s).peers[c].conn.state) < Rank(y.peers[c].conn.state)
       <==> s.ForeignSetState? && y.stage[s.t] == ShutdownTested(c) && y.peers[c].conn.state == Disconnected
  {
    hide EventLoops.Apply, EventLoops.Enabled, Send, Shutdown;
    if s.LoopSend? {
      StateForward(y.peers[s.c].conn, SendStep(s.message, s.w));
    } else if s.LoopShutdown? {
      StateForward(y.peers[s.c].conn, ShutdownStep);
    }
  }

  lemma CallbackKeepsState(y: Server, l: LoopId, r: ReadResult, w: WriteResult, c: ConnId)
    requires Enabled(y, RunHandler(l, r, w)) && c in y.peers
    ensures var z := Apply(y, RunHandler(l, r, w)); c in z.peers && z.peers[c].conn.state == y.peers[c].conn.state
  {
    hide EventLoops.Apply, EventLoops.Enabled, Handle;
    var (b, h) := y.dispatch[l][0];
    HandlerKeepsState(y.(dispatch := y.dispatch[l := y.dispatch[l][1..]]), l, b, h, r, w, c);
  }

  lemma TaskMovesForward(y: Server, l: LoopId, w: WriteResult, c: ConnId)
    requires Enabled(y, RunTask(l, w)) && c in y.peers
    ensures var z := Apply(y, RunTask(l, w));
            c in z.peers && Rank(z.peers[c].conn.state) >= Rank(y.peers[c].conn.state)
  {
    hide EventLoops.Apply, Execute;
    ExecuteMovesForward(Taken(y, l), y.loops[l].batch[0], w, c);
  }

  lemma HandlerKeepsState(y: Server, l: LoopId, b: ConnId, h: Handler, r: ReadResult, w: WriteResult, c: ConnId)
    requires b in y.peers && (Closes(h, r) ==> CanRemove(y, l, b))
    requires h == OnWrite ==> CanAnswer(w, y.peers[b].conn.output)
    requires c in y.peers
    ensures var z := Handle(y, l, b, h, r, w);
            c in z.peers && z.peers[c].conn.state == y.peers[c].conn.state
  {
    HandlersKeepState(y.peers[b].conn, w, r);
    hide EventLoops.Apply, EventLoops.Enabled, HandleWrite, HandleClose, HandleRead;
  }

  lemma HandlersKeepState(c: Conn, w: WriteResult, r: ReadResult)
    ensures CanAnswer(w, c.output) ==> HandleWrite(c, w).state == c.state
    ensures Open(c.state) ==> HandleClose(c).state == c.state && HandleRead(c, r).state == c.state
  {
  }

  lemma TasksKeepState(c: Conn, message: string, w: WriteResult)
    ensures CanAnswer(w, message) ==> SendInLoop(c, message, w).state == c.state
    ensures ShutdownInLoop(c).state == c.state
    ensures Rank(ConnectDestroyed(c).state) >= Rank(c.state)
    ensures c.state == Connecting ==> ConnectEstablished(c).state == Connected
  {
    if CanAnswer(w, message) {
      SendInLoopKeeps(c, message, w);
      hide SendInLoop;
    }
  }

  lemma ExecuteMovesForward(y: Server, task: Task, w: WriteResult, c: ConnId)
    requires CanExecute(y, task, w) && c in y.peers
    ensures c in Execute(y, task, w).peers
    ensures Rank(Execute(y, task, w).peers[c].conn.state) >= Rank(y.peers[c].conn.state)
  {
    hide EventLoops.Apply, EventLoops.Enabled, SendInLoop, ShutdownInLoop, ConnectDestroyed, ConnectEstablished;
    TasksKeepState(y.peers[task.c].conn, if task.SendTask? then task.message else "", w);
  }

  lemma NewServerIsSound(ids: set<LoopId>)
    ensures Sound(NewServer(ids))
  {
    NewLoopIsSound();
    hide EventLoops.Sound;
  }

  lemma FreshId(y: Server, c: ConnId)
    requires Sound(y) && c == y.nextConnId
    ensures c !in y.peers
  {
    hide LoopsSound, QueuesFit, ConnSound, EstablishedOnce;
  }

  lemma InBatch(y: Server, l: LoopId)
    requires Sound(y) && HasTask(y, l)
    ensures TaskFits(y, l, y.loops[l].batch[0])
  {
    hide EventLoops.Sound, PeersSound, HandlerFits, TaskFits;
    assert y.loops[l].batch[0] in Queue(y.loops[l]);
  }
}
