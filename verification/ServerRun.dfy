/** Runs of the server that show what its theorems have to exclude: a connection removed twice, and a state
    that moves backward. The base loop serves the one connection itself. */
module ServerRuns {
  import opened Text
  import opened TcpServers
  import opened ConnectionRemovals
  import Buffers
  import Pollers
  import TcpConnections
  import EventLoops

  lemma {:induction false} PlaySnoc(a: Account, steps: seq<Step>, s: Step)
    requires PlayAccount(a, steps).Some? && Enabled(PlayAccount(a, steps).value.server, s)
    ensures PlayAccount(a, steps + [s]) == Some(Next(PlayAccount(a, steps).value, s))
    decreases |steps|
  {
    hide Enabled, Next;
    if steps == [] {
      assert steps + [s] == [s];
    } else {
      assert (steps + [s])[1..] == steps[1..] + [s];
      PlaySnoc(Next(a, steps[0]), steps[1..], s);
    }
  }

  /** The base loop is alone, in this phase, with these tasks. */
  ghost predicate At(y: Server, phase: EventLoops.Phase, batch: seq<Task>, pending: seq<Task>) {
    && y.loops.Keys == {BASE} == y.dispatch.Keys && y.dispatch[BASE] == []
    && var l := y.loops[BASE];
       && l.phase == phase && l.batch == batch && l.pending == pending && l.waking == {} && !l.quit
       && (l.calling <==> phase == EventLoops.Calling || phase == EventLoops.Batch)
  }

  ghost predicate Reached(steps: seq<Step>, a: Account) {
    PlayAccount(NewAccount({}), steps) == Some(a)
  }

  ghost predicate OneConnection(y: Server) {
    y.peers.Keys == {1} && y.peers[1].home == BASE
  }

  lemma Move(steps: seq<Step>, a: Account, s: Step) returns (steps': seq<Step>, b: Account)
    requires Reached(steps, a) && Enabled(a.server, s)
    ensures Reached(steps', b) && b == Next(a, s)
  {
    hide Enabled, Next;
    PlaySnoc(NewAccount({}), steps, s);
    steps', b := steps + [s], Next(a, s);
  }

  lemma NotStarted() returns (steps: seq<Step>, a: Account)
    ensures Reached(steps, a) && At(a.server, EventLoops.Idle, [], [])
    ensures a.server.peers == map[] && a.server.connections == {} && a.server.nextConnId == 1 && a.server.stage == map[]
  {
    a, steps := NewAccount({}), [];
    assert a.server.loops.Keys == {BASE} == a.server.dispatch.Keys;
  }

  lemma Started() returns (steps: seq<Step>, a: Account)
    ensures Reached(steps, a) && At(a.server, EventLoops.Dispatching, [], [])
    ensures a.server.peers == map[] && a.server.connections == {} && a.server.nextConnId == 1 && a.server.stage == map[]
  {
    hide Reached;
    steps, a := NotStarted();
    steps, a := Move(steps, a, LoopMove(BASE, EventLoops.Enter));
    steps, a := Move(steps, a, PollReturns(BASE, []));
  }

  /** One connection, accepted and connected. */
  lemma Served(config: TcpConnections.Config) returns (steps: seq<Step>, a: Account)
    ensures Reached(steps, a) && At(a.server, EventLoops.Dispatching, [], [])
    ensures OneConnection(a.server) && a.server.connections == {1} && a.server.stage == map[]
    ensures a.server.peers[1].conn == TcpConnections.ConnectEstablished(TcpConnections.NewConn(config))
  {
    hide Reached;
    steps, a := Started();
    steps, a := Move(steps, a, Accept(BASE, config));
  }

  /** Another thread passes the test of `state_`. */
  lemma Tested(steps: seq<Step>, a: Account, stage: Stage) returns (steps': seq<Step>, b: Account)
    requires Reached(steps, a) && 1 in a.server.peers && a.server.peers[1].conn.state == TcpConnections.Connected
    requires a.server.stage == map[] && stage.c == 1 && !stage.StateStored?
    requires At(a.server, EventLoops.Dispatching, [], [])
    ensures At(b.server, EventLoops.Dispatching, [], [])
    ensures Reached(steps', b) && b.server == a.server.(stage := map[0 := stage]) && b.missed == a.missed
  {
    hide Reached;
    steps', b := Move(steps, a, ForeignTest(0, stage));
  }

  /** The base loop has these callbacks to run, and no tasks. */
  ghost predicate Reporting(y: Server, es: seq<(ConnId, Handler)>) {
    && y.dispatch == map[BASE := es] && y.loops.Keys == {BASE}
    && var l := y.loops[BASE];
       && l.phase == EventLoops.Dispatching && l.batch == [] && l.pending == [] && l.waking == {} && !l.quit
       && !l.calling
  }

  /** To the next round: the batch is over, and the poller reports something of the connection. */
  lemma Polled(steps: seq<Step>, a: Account, revents: set<Bit>) returns (steps': seq<Step>, b: Account)
    requires Reached(steps, a) && At(a.server, EventLoops.Batch, [], []) && OneConnection(a.server)
    requires Reported(a.server, BASE, Ready(1, revents))
    ensures Reached(steps', b) && Reporting(b.server, Handlers(Ready(1, revents)))
    ensures b.server.peers == a.server.peers && b.server.connections == a.server.connections
    ensures b.server.stage == a.server.stage && b.missed == a.missed
  {
    hide Reached, Handlers;
    steps', b := Move(steps, a, LoopMove(BASE, EventLoops.EndBatch));
    var r := Ready(1, revents);
    assert AllHandlers([r]) == Handlers(r) + AllHandlers([]) == Handlers(r);
    steps', b := Move(steps', b, PollReturns(BASE, [r]));
  }

  /** A hang-up closes the connection. */
  lemma HangsUp(steps: seq<Step>, a: Account) returns (steps': seq<Step>, b: Account)
    requires Reached(steps, a) && At(a.server, EventLoops.Batch, [], []) && OneConnection(a.server)
    requires a.server.peers[1].conn.registered && TcpConnections.Open(a.server.peers[1].conn.state)
    ensures Reached(steps', b) && At(b.server, EventLoops.Dispatching, [], [Destroy(1)])
    ensures b.server.peers == a.server.peers[1 := Peer(TcpConnections.HandleClose(a.server.peers[1].conn), BASE)]
    ensures b.server.connections == a.server.connections - {1} && b.server.stage == a.server.stage
    ensures b.missed == (a.missed || 1 !in a.server.connections)
  {
    hide Reached, At, Reporting;
    steps', b := Polled(steps, a, {Hup});
    assert Handlers(Ready(1, {Hup})) == [(1, OnClose)];
    steps', b := Closed(steps', b);
  }

  lemma Closed(steps: seq<Step>, a: Account) returns (steps': seq<Step>, b: Account)
    requires Reached(steps, a) && Reporting(a.server, [(1, OnClose)]) && OneConnection(a.server)
    requires TcpConnections.Open(a.server.peers[1].conn.state)
    ensures Reached(steps', b) && At(b.server, EventLoops.Dispatching, [], [Destroy(1)])
    ensures b.server.peers == a.server.peers[1 := Peer(TcpConnections.HandleClose(a.server.peers[1].conn), BASE)]
    ensures b.server.connections == a.server.connections - {1} && b.server.stage == a.server.stage
    ensures b.missed == (a.missed || 1 !in a.server.connections)
  {
    hide Reached, TcpConnections.HandleClose;
    steps', b := Move(steps, a, RunHandler(BASE, Buffers.ReadError, TcpConnections.Wrote(0)));
  }

  /** From dispatching into the batch. */
  lemma Swapped(steps: seq<Step>, a: Account, pending: seq<Task>) returns (steps': seq<Step>, b: Account)
    requires Reached(steps, a) && At(a.server, EventLoops.Dispatching, [], pending)
    ensures Reached(steps', b) && At(b.server, EventLoops.Batch, pending, [])
    ensures b.server.peers == a.server.peers && b.server.connections == a.server.connections && b.missed == a.missed
    ensures b.server.stage == a.server.stage
  {
    hide Reached;
    steps', b := Move(steps, a, LoopMove(BASE, EventLoops.BeginCalling));
    steps', b := Move(steps', b, LoopMove(BASE, EventLoops.Swap));
  }

  /** The other thread queues its task, behind what is pending. */
  lemma Queued(steps: seq<Step>, a: Account, pending: seq<Task>) returns (steps': seq<Step>, b: Account)
    requires Reached(steps, a) && At(a.server, EventLoops.Dispatching, [], pending) && OneConnection(a.server)
    requires a.server.stage == map[0 := SendTested(1, "a")]
    ensures Reached(steps', b) && At(b.server, EventLoops.Dispatching, [], pending + [SendTask(1, "a")])
    ensures b.server.peers == a.server.peers && b.server.connections == a.server.connections && b.missed == a.missed
  {
    hide Reached;
    steps', b := Move(steps, a, ForeignPush(0));
    steps', b := Move(steps', b, LoopMove(BASE, EventLoops.Wake(EventLoops.Other(0))));
  }

  /** The first task of the batch is carried out on the connection. */
  lemma Ran(steps: seq<Step>, a: Account, batch: seq<Task>) returns (steps': seq<Step>, b: Account)
    requires Reached(steps, a) && At(a.server, EventLoops.Batch, batch, []) && batch != []
    requires batch[0] == Destroy(1) || batch[0] == SendTask(1, "a")
    requires 1 in a.server.peers
    ensures Reached(steps', b) && At(b.server, EventLoops.Batch, batch[1..], [])
    ensures b.server.peers == a.server.peers[1 := Peer(
              if batch[0] == Destroy(1) then TcpConnections.ConnectDestroyed(a.server.peers[1].conn)
              else TcpConnections.SendInLoop(a.server.peers[1].conn, "a", TcpConnections.Wrote(0)),
              a.server.peers[1].home)]
    ensures b.server.connections == a.server.connections && b.missed == a.missed && b.server.stage == a.server.stage
  {
    hide Reached, TcpConnections.SendInLoop, TcpConnections.ConnectDestroyed;
    steps', b := Move(steps, a, RunTask(BASE, TcpConnections.Wrote(0)));
  }

  // ---- a removal that misses, after a late send ----

  /** A connection with nothing to send; another thread passed the test of `send` before it was shut
      down. */
  lemma ShutDownConnection(config: TcpConnections.Config) returns (steps: seq<Step>, a: Account)
    ensures Reached(steps, a) && At(a.server, EventLoops.Dispatching, [], [])
    ensures OneConnection(a.server) && a.server.connections == {1}
    ensures a.server.stage == map[0 := SendTested(1, "a")]
    ensures var c := a.server.peers[1].conn;
            c.state == TcpConnections.Disconnecting && c.registered && c.output == ""
  {
    hide Reached;
    steps, a := Served(config);
    steps, a := Tested(steps, a, SendTested(1, "a"));
    steps, a := Move(steps, a, LoopShutdown(1));
  }

  /** The destruction, and behind it the send. */
  lemma LateSend(steps: seq<Step>, a: Account) returns (steps': seq<Step>, b: Account)
    requires Reached(steps, a) && At(a.server, EventLoops.Dispatching, [], [Destroy(1)]) && OneConnection(a.server)
    requires a.server.stage == map[0 := SendTested(1, "a")]
    requires var c := a.server.peers[1].conn;
             c.state == TcpConnections.Disconnecting && c.events == {} && c.output == ""
    ensures Reached(steps', b) && At(b.server, EventLoops.Batch, [], []) && OneConnection(b.server)
    ensures b.server.peers[1].conn.registered && b.server.peers[1].conn.state == TcpConnections.Disconnecting
    ensures b.server.connections == a.server.connections && b.missed == a.missed
  {
    hide Reached, At;
    var tasks := [Destroy(1), SendTask(1, "a")];
    steps', b := Queued(steps, a, [Destroy(1)]);
    assert [Destroy(1)] + [SendTask(1, "a")] == tasks;
    steps', b := Swapped(steps', b, tasks);
    steps', b := Ran(steps', b, tasks);
    assert tasks[1..] == [SendTask(1, "a")];
    var c := b.server.peers[1].conn;
    SendAfterCloseRegisters(c, "a", TcpConnections.Wrote(0));
    TcpConnections.SendInLoopFields(c, "a", TcpConnections.Wrote(0));
    hide TcpConnections.SendInLoop;
    steps', b := Ran(steps', b, [SendTask(1, "a")]);
    assert [SendTask(1, "a")][1..] == [];
  }

  /** The assertion of `removeConnectionInLoop` can fail: a send that passed its test before the shutdown
      is queued behind the destruction of its connection, registers the descriptor again, and the hang-up
      is reported twice. */
  lemma RemovalMissesAfterLateSend(config: TcpConnections.Config) returns (steps: seq<Step>)
    ensures PlayAccount(NewAccount({}), steps).Some? && PlayAccount(NewAccount({}), steps).value.missed
  {
    hide Reached, Next, Enabled, At;
    var a: Account;
    steps, a := ShutDownConnection(config);
    steps, a := Swapped(steps, a, []);
    steps, a := HangsUp(steps, a);
    steps, a := LateSend(steps, a);
    steps, a := HangsUp(steps, a);
    ReachedMeans(steps, a);
  }

  lemma ReachedMeans(steps: seq<Step>, a: Account)
    requires Reached(steps, a)
    ensures PlayAccount(NewAccount({}), steps) == Some(a) && Play(NewServer({}), steps) == Some(a.server)
  {
  }

  // ---- a removal that misses, after one report ----

  /** The assertion can fail without any send and without any other thread: one report of a hang-up and
      of urgent data, without ordinary data, runs two callbacks that close. */
  lemma RemovalMissesAfterOneReport(config: TcpConnections.Config) returns (steps: seq<Step>)
    ensures PlayAccount(NewAccount({}), steps).Some? && PlayAccount(NewAccount({}), steps).value.missed
  {
    hide Reached, At, Reporting;
    var a: Account;
    steps, a := Served(config);
    steps, a := Swapped(steps, a, []);
    var revents := {Hup, Reports(Pollers.Pri)};
    steps, a := Polled(steps, a, revents);
    assert Handlers(Ready(1, revents)) == [(1, OnClose), (1, OnRead)];
    steps, a := ClosedTwice(steps, a);
    ReachedMeans(steps, a);
  }

  lemma ClosedTwice(steps: seq<Step>, a: Account) returns (steps': seq<Step>, b: Account)
    requires Reached(steps, a) && OneConnection(a.server) && TcpConnections.Open(a.server.peers[1].conn.state)
    requires Reporting(a.server, [(1, OnClose), (1, OnRead)])
    ensures Reached(steps', b) && b.missed
  {
    hide Reached;
    steps', b := ClosedOf(steps, a);
    steps', b := Move(steps', b, RunHandler(BASE, Buffers.Data(""), TcpConnections.Wrote(0)));
  }

  /** The first of the two. */
  lemma ClosedOf(steps: seq<Step>, a: Account) returns (steps': seq<Step>, b: Account)
    requires Reached(steps, a) && OneConnection(a.server) && TcpConnections.Open(a.server.peers[1].conn.state)
    requires Reporting(a.server, [(1, OnClose), (1, OnRead)])
    ensures Reached(steps', b) && OneConnection(b.server) && TcpConnections.Open(b.server.peers[1].conn.state)
    ensures 1 !in b.server.connections
    ensures b.server.dispatch == map[BASE := [(1, OnRead)]] && b.server.loops.Keys == {BASE}
    ensures var l := b.server.loops[BASE]; l.phase == EventLoops.Dispatching && l.waking == {} && !l.calling
  {
    hide Reached;
    steps', b := Move(steps, a, RunHandler(BASE, Buffers.Data(""), TcpConnections.Wrote(0)));
    assert [(1, OnClose), (1, OnRead)][1..] == [(1, OnRead)];
  }

  // ---- a state that moves backward ----

  /** Another thread tests the state in `shutdown`; the connection hangs up and is destroyed; then the
      thread stores `kDisconnecting` over `kDisconnected`. */
  lemma StateMovesBackward(config: TcpConnections.Config) returns (steps: seq<Step>, s: Step)
    ensures Play(NewServer({}), steps).Some?
    ensures var y := Play(NewServer({}), steps).value;
            && Enabled(y, s) && 1 in y.peers && 1 in Apply(y, s).peers
            && y.peers[1].conn.state == TcpConnections.Disconnected
            && Apply(y, s).peers[1].conn.state == TcpConnections.Disconnecting
  {
    hide Reached, Next, At;
    var a: Account;
    steps, a := Served(config);
    steps, a := Tested(steps, a, ShutdownTested(1));
    steps, a := Swapped(steps, a, []);
    steps, a := HangsUp(steps, a);
    steps, a := Swapped(steps, a, [Destroy(1)]);
    steps, a := Ran(steps, a, [Destroy(1)]);
    s := ForeignSetState(0);
    ReachedMeans(steps, a);
  }
}
