/** From the poller's reports to the connections: every callback runs, and every connection of the server
    lives through nothing but its own steps. */
module ServerDispatches {
  import opened Text
  import opened TcpServers
  import Buffers
  import TcpConnections
  import SenderOrders
  import ConnectionRemovals
  import EventLoops

  // ---- callbacks run ----

  /** Somewhere in the run loop `l` runs this callback. */
  predicate CallbackRuns(y: Server, steps: seq<Step>, l: LoopId, e: (ConnId, Handler))
    decreases |steps|
  {
    && steps != [] && Enabled(y, steps[0])
    && (RunsNow(y, steps[0], l, e) || CallbackRuns(Apply(y, steps[0]), steps[1..], l, e))
  }

  predicate Waits(y: Server, l: LoopId, e: (ConnId, Handler)) {
    l in y.dispatch && e in y.dispatch[l]
  }

  /** It is the callback whose turn it is. */
  predicate RunsNow(y: Server, s: Step, l: LoopId, e: (ConnId, Handler))
    requires Enabled(y, s)
  {
    s.RunHandler? && s.l == l && y.dispatch[l][0] == e
  }

  /** A callback that waits is the next one to run, or goes on waiting. */
  lemma StaysInDispatch(y: Server, s: Step, l: LoopId, e: (ConnId, Handler))
    requires Enabled(y, s)
    requires Sound(y) && Waits(y, l, e)
    ensures RunsNow(y, s, l, e) || Waits(Apply(y, s), l, e)
  {
    hide Sound;
    if s.PollReturns? {
      NotPolling(y, l);
      PolledDispatch(y, s.l, s.ready);
      hide Apply;
    } else if s.RunHandler? {
      ConnectionRemovals.HandledDispatch(y, s.l, s.r, s.w);
      hide Apply, EventLoops.Enabled, CanRemove;
      if s.l == l && y.dispatch[l][0] != e {
        assert e in y.dispatch[l][1..];
      }
    } else {
      hide Enabled, Apply;
      ConnectionRemovals.SameDispatch(y, s);
    }
  }

  lemma PolledDispatch(y: Server, l: LoopId, ready: seq<Ready>)
    requires Enabled(y, PollReturns(l, ready))
    ensures Apply(y, PollReturns(l, ready)).dispatch == y.dispatch[l := AllHandlers(ready)]
  {
    hide EventLoops.Apply, EventLoops.Enabled, AllHandlers;
  }

  lemma NotPolling(y: Server, l: LoopId)
    requires Sound(y) && l in y.dispatch && y.dispatch[l] != []
    ensures l in y.loops && !EventLoops.Enabled(y.loops[l], EventLoops.PollReturns)
  {
    hide QueuesFit, PeersSound, StagesFit, EventLoops.Sound;
  }

  lemma {:induction false} RunsOrWaits(y: Server, steps: seq<Step>, l: LoopId, e: (ConnId, Handler))
    requires Sound(y) && Play(y, steps).Some? && Waits(y, l, e)
    ensures CallbackRuns(y, steps, l, e) || Waits(Play(y, steps).value, l, e)
    decreases |steps|
  {
    hide Sound, Apply, Enabled, Waits, RunsNow;
    if steps != [] {
      StaysInDispatch(y, steps[0], l, e);
      StepKeepsSound(y, steps[0]);
      if !RunsNow(y, steps[0], l, e) {
        RunsOrWaits(Apply(y, steps[0]), steps[1..], l, e);
      }
    }
  }

  /** EVERY REPORT IS HANDLED, over every interleaving: when a loop gets to its functors, each callback that
      the poller's reports call for has run; so a report of ordinary data has run the read callback. */
  lemma ReportsAreHandled(ids: set<LoopId>, before: seq<Step>, l: LoopId, ready: seq<Ready>, after: seq<Step>,
                          i: nat, h: Handler)
    requires Play(NewServer(ids), before).Some? && Enabled(Play(NewServer(ids), before).value, PollReturns(l, ready))
    requires var y := Apply(Play(NewServer(ids), before).value, PollReturns(l, ready));
             Play(y, after).Some? && Enabled(Play(y, after).value, LoopMove(l, EventLoops.BeginCalling))
    requires i < |ready| && Calls(ready[i].revents, h)
    ensures CallbackRuns(Apply(Play(NewServer(ids), before).value, PollReturns(l, ready)), after, l, (ready[i].c, h))
  {
    hide Sound, NewServer, Play, CallbackRuns, Apply, AllHandlers, Handlers, EventLoops.Enabled, EventLoops.Apply;
    var x := Play(NewServer(ids), before).value;
    var y := Apply(x, PollReturns(l, ready));
    var e := (ready[i].c, h);
    ReportRuns(ready[i]);
    assert e in Handlers(ready[i]);
    AllReportsRun(ready, i);
    PolledDispatch(x, l, ready);
    assert Waits(y, l, e);
    NewServerIsSound(ids);
    PlayKeepsSound(NewServer(ids), before);
    StepKeepsSound(x, PollReturns(l, ready));
    RunsOrWaits(y, after, l, e);
  }

  // ---- the server seen from one connection ----

  /** What can happen to a connection: a step of its own, a task another thread queued, or a store of
      `kDisconnecting` by another thread. */
  datatype Act =
    | Own(a: TcpConnections.Action)
    | TaskSend(message: string, w: TcpConnections.WriteResult)
    | TaskShutdown
    | Store

  predicate CanAct(c: TcpConnections.Conn, x: Act) {
    match x
    case Own(a) => TcpConnections.Enabled(c, a)
    case TaskSend(message, w) => TcpConnections.CanAnswer(w, message)
    case _ => true
  }

  function Acted(c: TcpConnections.Conn, x: Act): TcpConnections.Conn
    requires CanAct(c, x)
  {
    match x
    case Own(a) => TcpConnections.Apply(c, a)
    case TaskSend(message, w) => TcpConnections.SendInLoop(c, message, w)
    case TaskShutdown => TcpConnections.ShutdownInLoop(c)
    case Store => c.(state := TcpConnections.Disconnecting)
  }

  function CallbackAct(h: Handler, r: Buffers.ReadResult, w: TcpConnections.WriteResult): Option<Act> {
    match h
    case OnClose => Some(Own(TcpConnections.CloseStep))
    case OnError => None
    case OnRead => Some(Own(TcpConnections.ReadStep(r)))
    case OnWrite => Some(Own(TcpConnections.WriteStep(w)))
  }

  function TaskAct(task: Task, w: TcpConnections.WriteResult): Option<Act> {
    match task
    case Establish(_) => Some(Own(TcpConnections.EstablishStep))
    case Destroy(_) => Some(Own(TcpConnections.DestroyStep))
    case SendTask(_, message) => Some(TaskSend(message, w))
    case ShutdownTask(_) => Some(TaskShutdown)
    case RemoveInLoop(_) => None
  }

  /** What a step of the server is to connection `c`: at most one thing. */
  function ActOn(y: Server, s: Step, c: ConnId): Option<Act>
    requires Enabled(y, s)
  {
    match s
    case RunHandler(l, r, w) => if y.dispatch[l][0].0 == c then CallbackAct(y.dispatch[l][0].1, r, w) else None
    case RunTask(l, w) => if y.loops[l].batch[0].c == c then TaskAct(y.loops[l].batch[0], w) else None
    case LoopSend(b, message, w) => if b == c then Some(Own(TcpConnections.SendStep(message, w))) else None
    case LoopShutdown(b) => if b == c then Some(Own(TcpConnections.ShutdownStep)) else None
    case Consume(b, n) => if b == c then Some(Own(TcpConnections.ConsumeStep(n))) else None
    case ForeignSetState(t) => if y.stage[t].c == c then Some(Store) else None
    case _ => None
  }

  ghost predicate Follows(before: TcpConnections.Conn, after: TcpConnections.Conn, x: Option<Act>) {
    if x.None? then after == before else CanAct(before, x.value) && after == Acted(before, x.value)
  }

  lemma RemoveKeepsPeers(y: Server, l: LoopId, c: ConnId)
    requires CanRemove(y, l, c)
    ensures RemovePeer(y, l, c).peers == y.peers
  {
    hide EventLoops.Apply, EventLoops.Enabled;
  }

  lemma HandleFollows(y: Server, l: LoopId, b: ConnId, h: Handler, r: Buffers.ReadResult,
                      w: TcpConnections.WriteResult, c: ConnId)
    requires b in y.peers && TcpConnections.Open(y.peers[b].conn.state) && (Closes(h, r) ==> CanRemove(y, l, b))
    requires h == OnWrite ==> TcpConnections.CanAnswer(w, y.peers[b].conn.output)
    requires Closes(h, r) ==> CanRemove(Update(y, b, TcpConnections.HandleClose(y.peers[b].conn)), l, b)
    requires c in y.peers
    ensures var z := Handle(y, l, b, h, r, w);
            c in z.peers && Follows(y.peers[c].conn, z.peers[c].conn, if b == c then CallbackAct(h, r, w) else None)
  {
    hide CanRemove, RemovePeer, TcpConnections.HandleWrite;
    if Closes(h, r) {
      RemoveKeepsPeers(Update(y, b, TcpConnections.HandleClose(y.peers[b].conn)), l, b);
    }
    hide TcpConnections.HandleClose;
  }

  lemma HandlerFollows(y: Server, l: LoopId, r: Buffers.ReadResult, w: TcpConnections.WriteResult, c: ConnId)
    requires Enabled(y, RunHandler(l, r, w))
    requires Sound(y) && c in y.peers
    ensures var z := Apply(y, RunHandler(l, r, w));
            c in z.peers && Follows(y.peers[c].conn, z.peers[c].conn, ActOn(y, RunHandler(l, r, w), c))
  {
    hide Sound, Handle, Follows, CallbackAct, TcpConnections.HandleClose, EventLoops.Apply, EventLoops.Enabled;
    ConnectionRemovals.HandlerIsOpen(y, l);
    var (b, h) := y.dispatch[l][0];
    HandleFollows(y.(dispatch := y.dispatch[l := y.dispatch[l][1..]]), l, b, h, r, w, c);
  }

  lemma ExecuteFollows(y: Server, task: Task, w: TcpConnections.WriteResult, c: ConnId)
    requires CanExecute(y, task, w) && c in y.peers
    requires task.Establish? ==> y.peers[task.c].conn.state == TcpConnections.Connecting
    requires task.Destroy? ==> y.peers[task.c].conn.closed
    ensures var z := Execute(y, task, w);
            c in z.peers && Follows(y.peers[c].conn, z.peers[c].conn, if task.c == c then TaskAct(task, w) else None)
  {
    hide EventLoops.Apply, EventLoops.Enabled, TcpConnections.SendInLoop, TcpConnections.ShutdownInLoop,
         TcpConnections.ConnectDestroyed, TcpConnections.ConnectEstablished;
  }

  lemma TaskFollows(y: Server, l: LoopId, w: TcpConnections.WriteResult, c: ConnId)
    requires Enabled(y, RunTask(l, w))
    requires Sound(y) && c in y.peers
    ensures var z := Apply(y, RunTask(l, w));
            c in z.peers && Follows(y.peers[c].conn, z.peers[c].conn, ActOn(y, RunTask(l, w), c))
  {
    hide Sound, Execute, Follows, TaskAct, EventLoops.Apply;
    InBatch(y, l);
    if y.loops[l].batch[0].Establish? {
      WaitsToConnect(y, l);
    }
    ExecuteFollows(Taken(y, l), y.loops[l].batch[0], w, c);
  }

  lemma WaitsToConnect(y: Server, l: LoopId)
    requires Sound(y) && HasTask(y, l) && y.loops[l].batch[0].Establish?
    ensures var c := y.loops[l].batch[0].c; c in y.peers && y.peers[c].conn.state == TcpConnections.Connecting
  {
    hide QueuesFit, PeersSound, StagesFit, EventLoops.Sound, EventLoops.Apply;
    TakenQueue(y.loops[l]);
    WasConnecting(y, l, EventLoops.Apply(y.loops[l], EventLoops.RunNext), y.loops[l].batch[0].c);
  }

  lemma OthersFollow(y: Server, s: Step, c: ConnId)
    requires Enabled(y, s) && !s.RunHandler? && !s.RunTask?
    requires Sound(y) && c in y.peers
    ensures c in Apply(y, s).peers && Follows(y.peers[c].conn, Apply(y, s).peers[c].conn, ActOn(y, s, c))
  {
    hide Sound;
    FreshId(y, y.nextConnId);
    if s.Accept? {
      AcceptFollows(y, s.home, s.config, c);
    } else {
      UserFollows(y, s, c);
    }
  }

  lemma AcceptFollows(y: Server, home: LoopId, config: TcpConnections.Config, c: ConnId)
    requires CanAccept(y, home) && c in y.peers && y.nextConnId !in y.peers
    ensures var z := NewConnection(y, home, config); c in z.peers && z.peers[c] == y.peers[c]
  {
    hide EventLoops.Apply, EventLoops.Enabled, TcpConnections.ConnectEstablished;
  }

  lemma UserFollows(y: Server, s: Step, c: ConnId)
    requires Enabled(y, s) && !s.RunHandler? && !s.RunTask? && !s.Accept? && c in y.peers
    ensures c in Apply(y, s).peers && Follows(y.peers[c].conn, Apply(y, s).peers[c].conn, ActOn(y, s, c))
  {
    hide EventLoops.Apply, EventLoops.Enabled, TcpConnections.Send, TcpConnections.Shutdown;
  }

  /** ONE CONNECTION AT A TIME: whatever the loops and threads do, each step is to each connection either
      nothing or the one thing named, on the callback or the task whose turn it is. */
  lemma StepFollows(y: Server, s: Step, c: ConnId)
    requires Enabled(y, s)
    requires Sound(y) && c in y.peers
    ensures c in Apply(y, s).peers && Follows(y.peers[c].conn, Apply(y, s).peers[c].conn, ActOn(y, s, c))
  {
    hide Sound, Apply, Enabled, Follows, ActOn;
    match s {
      case RunHandler(l, r, w) => HandlerFollows(y, l, r, w, c);
      case RunTask(l, w) => TaskFollows(y, l, w, c);
      case _ => OthersFollow(y, s, c);
    }
  }

  // ---- every stream of the server ----

  ghost predicate Streams(c: TcpConnections.Conn) {
    TcpConnections.Conserved(c) && SenderOrders.Drains(c)
  }

  lemma SendStreams(c: TcpConnections.Conn, message: string, w: TcpConnections.WriteResult)
    requires Streams(c) && TcpConnections.CanAnswer(w, message)
    ensures Streams(TcpConnections.SendInLoop(c, message, w))
  {
    hide TcpConnections.Conserved, Concat;
    TcpConnections.SendInLoopConserves(c, message, w);
    TcpConnections.SendInLoopKeeps(c, message, w);
    if c.state != TcpConnections.Disconnected && !(c.Direct() && TcpConnections.Fatal(w)) {
      TcpConnections.SendInLoopFields(c, message, w);
      hide TcpConnections.SendInLoop;
    }
  }

  lemma OwnStreams(c: TcpConnections.Conn, a: TcpConnections.Action)
    requires Streams(c) && TcpConnections.Enabled(c, a) && !a.SendStep?
    ensures Streams(TcpConnections.Apply(c, a))
  {
    hide Concat, TcpConnections.Apply, TcpConnections.Enabled;
    SenderOrders.DrainKept(c, a);
    SenderOrders.StreamUntouched(c, a);
  }

  lemma ActStreams(c: TcpConnections.Conn, x: Act)
    requires Streams(c) && CanAct(c, x)
    ensures Streams(Acted(c, x))
  {
    hide Concat, TcpConnections.SendInLoop;
    match x {
      case Own(a) =>
        if a.SendStep? {
          SendStreams(c, a.message, a.w);
        } else {
          OwnStreams(c, a);
        }
      case TaskSend(message, w) => SendStreams(c, message, w);
      case TaskShutdown => SenderOrders.TaskHalfCloses(c);
      case Store =>
    }
  }

  ghost predicate AllStream(peers: map<ConnId, Peer>) {
    forall c :: c in peers ==> Streams(peers[c].conn)
  }

  lemma StepStreams(y: Server, s: Step)
    requires Enabled(y, s)
    requires Sound(y) && AllStream(y.peers)
    ensures AllStream(Apply(y, s).peers)
  {
    hide Sound, Streams, Enabled;
    forall c | c in Apply(y, s).peers ensures Streams(Apply(y, s).peers[c].conn) {
      if c in y.peers {
        StepFollows(y, s, c);
        hide Apply, ActOn, Acted, CanAct;
        if ActOn(y, s, c).Some? {
          ActStreams(y.peers[c].conn, ActOn(y, s, c).value);
        }
      } else {
        Newcomer(y, s, c);
      }
    }
  }

  lemma Newcomer(y: Server, s: Step, c: ConnId)
    requires Enabled(y, s) && c !in y.peers && c in Apply(y, s).peers
    ensures Streams(Apply(y, s).peers[c].conn)
  {
    if s.Accept? {
      NewStreams(s.config);
      hide Streams, EventLoops.Apply, EventLoops.Enabled, TcpConnections.ConnectEstablished;
    } else {
      OnlyAcceptAdds(y, s);
    }
  }

  lemma OnlyAcceptAdds(y: Server, s: Step)
    requires Enabled(y, s) && !s.Accept?
    ensures Apply(y, s).peers.Keys <= y.peers.Keys
  {
    if s.RunHandler? {
      HandlerKeepsKeys(y, s);
      hide Apply, Enabled;
    } else if s.RunTask? {
      TaskKeepsKeys(y, s);
      hide Apply, Enabled;
    } else {
      hide EventLoops.Apply, EventLoops.Enabled, TcpConnections.Send, TcpConnections.Shutdown;
    }
  }

  lemma HandlerKeepsKeys(y: Server, s: Step)
    requires Enabled(y, s) && s.RunHandler?
    ensures Apply(y, s).peers.Keys <= y.peers.Keys
  {
    hide EventLoops.Apply, EventLoops.Enabled;
    hide TcpConnections.HandleWrite, TcpConnections.HandleRead, TcpConnections.HandleClose;
  }

  lemma TaskKeepsKeys(y: Server, s: Step)
    requires Enabled(y, s) && s.RunTask?
    ensures Apply(y, s).peers.Keys <= y.peers.Keys
  {
    hide EventLoops.Apply, TcpConnections.SendInLoop, TcpConnections.ShutdownInLoop,
         TcpConnections.ConnectDestroyed, TcpConnections.ConnectEstablished;
  }

  lemma NewStreams(config: TcpConnections.Config)
    ensures Streams(TcpConnections.NewConn(config))
    ensures Streams(TcpConnections.ConnectEstablished(TcpConnections.NewConn(config)))
  {
    assert "" + "" == "";
  }

  lemma {:induction false} PlayStreams(y: Server, steps: seq<Step>)
    requires Sound(y) && AllStream(y.peers) && Play(y, steps).Some?
    ensures AllStream(Play(y, steps).value.peers)
    decreases |steps|
  {
    hide Sound, AllStream, Apply, Enabled;
    if steps != [] {
      StepStreams(y, steps[0]);
      StepKeepsSound(y, steps[0]);
      PlayStreams(Apply(y, steps[0]), steps[1..]);
    }
  }

  /** EVERY STREAM IS CONSERVED, over every interleaving of all loops and threads: of each connection, wire and
      waiting bytes are the accepted messages, and before `handleClose` writing interest is exact and every
      half-close comes after the drain. */
  lemma EveryStreamIsConserved(ids: set<LoopId>, steps: seq<Step>, c: ConnId)
    requires Play(NewServer(ids), steps).Some? && c in Play(NewServer(ids), steps).value.peers
    ensures var conn := Play(NewServer(ids), steps).value.peers[c].conn;
            && conn.wire + conn.output == Concat(conn.accepted)
            && TcpConnections.InterestExact(conn) && TcpConnections.HalfClosesDrained(conn)
  {
    hide Sound, Play;
    NewServerIsSound(ids);
    PlayStreams(NewServer(ids), steps);
  }

  // ---- what is queued where ----

  /** The tasks a step queues in loop `l`: the establishment of a new connection at its home, the removal of a
      closed one in the base loop, its destruction at its home, and what other threads send and shut down. */
  function PostedTo(y: Server, s: Step, l: LoopId): seq<Task>
    requires Enabled(y, s)
  {
    match s
    case RunHandler(k, r, _) =>
      var c := y.dispatch[k][0].0;
      if !Closes(y.dispatch[k][0].1, r) then []
      else if k == BASE then (if y.peers[c].home == l then [Destroy(c)] else [])
      else if l == BASE then [RemoveInLoop(c)] else []
    case RunTask(k, _) =>
      var task := y.loops[k].batch[0];
      if task.RemoveInLoop? && y.peers[task.c].home == l then [Destroy(task.c)] else []
    case Accept(home, _) => if home == l && home != BASE then [Establish(y.nextConnId)] else []
    case ForeignPush(t) =>
      if y.peers[y.stage[t].c].home != l then []
      else if y.stage[t].SendTested? then [SendTask(y.stage[t].c, y.stage[t].message)]
      else [ShutdownTask(y.stage[t].c)]
    case _ => []
  }

  /** The queue of loop `l` once the step has taken its task from it. */
  function Left(y: Server, s: Step, l: LoopId): seq<Task>
    requires l in y.loops
  {
    var q := Queue(y.loops[l]);
    if s.RunTask? && s.l == l && q != [] then q[1..] else q
  }

  lemma PostQueues(y: Server, target: LoopId, who: EventLoops.Thread, task: Task, l: LoopId)
    requires CanPost(y, target, who, task) && EventLoops.Sound(y.loops[target]) && l in y.loops
    ensures l in Post(y, target, who, task).loops
    ensures Queue(Post(y, target, who, task).loops[l]) == Queue(y.loops[l]) + (if l == target then [task] else [])
  {
    hide EventLoops.Sound, EventLoops.Enabled, EventLoops.Apply, Queue;
    PushedQueue(y.loops[target], who, task);
    assert Queue(y.loops[l]) + [] == Queue(y.loops[l]);
  }

  ghost predicate LoopsOk(y: Server) {
    BASE in y.loops && forall k :: k in y.loops ==> EventLoops.Sound(y.loops[k])
  }

  lemma RemoveNowQueues(y: Server, c: ConnId, l: LoopId)
    requires CanRemoveNow(y, c) && LoopsOk(y) && l in y.loops
    ensures l in RemoveNow(y, c).loops
    ensures Queue(RemoveNow(y, c).loops[l])
            == Queue(y.loops[l]) + (if y.peers[c].home == l then [Destroy(c)] else [])
  {
    hide EventLoops.Sound, EventLoops.Enabled, EventLoops.Apply, Queue;
    PostQueues(y.(connections := y.connections - {c}), y.peers[c].home, ThreadOf(BASE, y.peers[c].home), Destroy(c), l);
  }

  lemma RemovePeerQueues(y: Server, k: LoopId, c: ConnId, l: LoopId)
    requires CanRemove(y, k, c) && c in y.peers && LoopsOk(y) && l in y.loops
    ensures l in RemovePeer(y, k, c).loops
    ensures Queue(RemovePeer(y, k, c).loops[l])
            == Queue(y.loops[l]) + (if k == BASE then (if y.peers[c].home == l then [Destroy(c)] else [])
                                    else if l == BASE then [RemoveInLoop(c)] else [])
  {
    hide EventLoops.Sound, EventLoops.Enabled, EventLoops.Apply, Queue, RemoveNow;
    if k == BASE {
      RemoveNowQueues(y, c, l);
    } else {
      PostQueues(y, BASE, EventLoops.Other(k), RemoveInLoop(c), l);
    }
  }

  lemma HandlerQueues(y: Server, k: LoopId, r: Buffers.ReadResult, w: TcpConnections.WriteResult, l: LoopId)
    requires Enabled(y, RunHandler(k, r, w)) && l in y.loops
    requires Sound(y)
    ensures var z := Apply(y, RunHandler(k, r, w));
            l in z.loops && Queue(z.loops[l]) == Queue(y.loops[l]) + PostedTo(y, RunHandler(k, r, w), l)
  {
    hide Sound, EventLoops.Apply, EventLoops.Enabled, EventLoops.Sound, Queue, RemovePeer;
    hide TcpConnections.HandleWrite, TcpConnections.HandleRead;
    ConnectionRemovals.HandlerIsOpen(y, k);
    ConnectionRemovals.SoundLoops(y);
    var (c, h) := y.dispatch[k][0];
    assert Queue(y.loops[l]) + [] == Queue(y.loops[l]);
    if Closes(h, r) {
      var x := y.(dispatch := y.dispatch[k := y.dispatch[k][1..]]);
      RemovePeerQueues(Update(x, c, TcpConnections.HandleClose(x.peers[c].conn)), k, c, l);
    }
    hide TcpConnections.HandleClose;
  }

  lemma TaskQueues(y: Server, k: LoopId, w: TcpConnections.WriteResult, l: LoopId)
    requires Enabled(y, RunTask(k, w)) && l in y.loops
    requires Sound(y)
    ensures var z := Apply(y, RunTask(k, w));
            l in z.loops && Queue(z.loops[l]) == Left(y, RunTask(k, w), l) + PostedTo(y, RunTask(k, w), l)
  {
    hide LoopsSound, QueuesFit, PeersSound, StagesFit;
    hide EventLoops.Apply, EventLoops.Sound, Queue, RemoveNow, CanRemoveNow, Execute;
    ConnectionRemovals.TakenIsLoops(y, k);
    ConnectionRemovals.SoundLoops(y);
    hide Sound;
    TakenQueue(y.loops[k]);
    var task, x := y.loops[k].batch[0], Taken(y, k);
    ExecuteQueues(x, task, w, l);
  }

  lemma ExecuteQueues(y: Server, task: Task, w: TcpConnections.WriteResult, l: LoopId)
    requires CanExecute(y, task, w) && LoopsOk(y) && l in y.loops
    ensures l in Execute(y, task, w).loops
    ensures Queue(Execute(y, task, w).loops[l])
            == Queue(y.loops[l])
               + (if task.RemoveInLoop? && y.peers[task.c].home == l then [Destroy(task.c)] else [])
  {
    hide EventLoops.Apply, EventLoops.Enabled, EventLoops.Sound, Queue, RemoveNow, TcpConnections.SendInLoop,
         TcpConnections.ShutdownInLoop, TcpConnections.ConnectDestroyed, TcpConnections.ConnectEstablished;
    assert Queue(y.loops[l]) + [] == Queue(y.loops[l]);
    if task.RemoveInLoop? {
      RemoveNowQueues(y, task.c, l);
    }
  }

  lemma OtherQueues(y: Server, s: Step, l: LoopId)
    requires Enabled(y, s) && !s.RunHandler? && !s.RunTask? && l in y.loops
    requires LoopsOk(y)
    ensures l in Apply(y, s).loops && Queue(Apply(y, s).loops[l]) == Queue(y.loops[l]) + PostedTo(y, s, l)
  {
    hide EventLoops.Apply, EventLoops.Sound, Queue, TcpConnections.Send, TcpConnections.Shutdown;
    assert Queue(y.loops[l]) + [] == Queue(y.loops[l]);
    match s {
      case LoopMove(k, m) => QuietQueue(y.loops[k], m);
      case PollReturns(k, _) => QuietQueue(y.loops[k], EventLoops.PollReturns);
      case Accept(home, config) => AcceptQueues(y, home, config, l);
      case ForeignPush(t) =>
        PostQueues(y.(stage := y.stage - {t}), y.peers[y.stage[t].c].home, EventLoops.Other(t), TaskOf(y.stage[t]), l);
      case _ =>
    }
  }

  lemma AcceptQueues(y: Server, home: LoopId, config: TcpConnections.Config, l: LoopId)
    requires CanAccept(y, home) && LoopsOk(y) && l in y.loops
    ensures var z := NewConnection(y, home, config);
            l in z.loops && Queue(z.loops[l]) == Queue(y.loops[l]) + PostedTo(y, Accept(home, config), l)
  {
    hide EventLoops.Apply, EventLoops.Enabled, EventLoops.Sound, Queue, TcpConnections.ConnectEstablished;
    assert Queue(y.loops[l]) + [] == Queue(y.loops[l]);
    if home != BASE {
      PostQueues(y, home, EventLoops.Other(BASE), Establish(y.nextConnId), l);
    }
  }

  /** EVERY TASK IS WHERE IT BELONGS: whatever the loops and threads do, each step takes from each loop's queue its
      own task, at the head, and puts at the end exactly the tasks named. */
  lemma StepQueues(y: Server, s: Step, l: LoopId)
    requires Enabled(y, s)
    requires Sound(y) && l in y.loops
    ensures l in Apply(y, s).loops && Queue(Apply(y, s).loops[l]) == Left(y, s, l) + PostedTo(y, s, l)
  {
    hide Sound, Apply, PostedTo, Queue, EventLoops.Sound, CanRunHandler, CanExecute, CanAccept, CanPost;
    ConnectionRemovals.SoundLoops(y);
    if s.RunHandler? {
      HandlerQueues(y, s.l, s.r, s.w, l);
    } else if s.RunTask? {
      TaskQueues(y, s.l, s.w, l);
    } else {
      OtherQueues(y, s, l);
    }
  }
}
