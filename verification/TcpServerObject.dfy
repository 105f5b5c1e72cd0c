/** The server object on the base loop's thread, with the loops and connections around it as a value. */
module ServerObjects {
  import opened Text
  import opened TcpServers
  import Buffers
  import TcpConnections
  import EventLoops

  /** The fields the base loop's thread changes; `model` is the whole system around them. */
  class TcpServer {
    var connections: set<ConnId>
    var nextConnId: ConnId
    ghost var model: Server

    ghost predicate Valid()
      reads this
    {
      Sound(model) && model.connections == connections && model.nextConnId == nextConnId
    }

    constructor (ghost ids: set<LoopId>)
      ensures Valid() && model == NewServer(ids)
    {
      connections, nextConnId := {}, 1;
      model := NewServer(ids);
      new;
      NewServerIsSound(ids);
    }

    /** Connection names are numbered, so the new one is new. */
    method AcceptConnection(home: LoopId, config: TcpConnections.Config) returns (c: ConnId)
      requires Valid() && CanAccept(model, home)
      modifies this
      ensures Valid() && model == NewConnection(old(model), home, config)
      ensures c !in old(model).peers && connections == old(connections) + {c}
    {
      hide Sound, EventLoops.Apply, EventLoops.Enabled, TcpConnections.ConnectEstablished;
      AcceptKeepsSound(model, home, config);
      c := nextConnId;
      model := NewConnection(model, home, config);
      connections := connections + {c};
      nextConnId := nextConnId + 1;
      FreshId(old(model), c);
    }

    /** `removeConnectionInLoop`; `n` is the number its assertion wants to be 1. */
    method RemoveConnectionInLoop(c: ConnId) returns (n: nat)
      requires Valid() && CanRemoveNow(model, c)
      requires model.peers[c].conn.closed && model.peers[c].conn.state != TcpConnections.Connecting
      modifies this
      ensures Valid() && model == RemoveNow(old(model), c)
      ensures connections == old(connections) - {c} && n == if c in old(connections) then 1 else 0
    {
      hide Sound, RemoveNow, CanPost;
      RemoveNowKeepsSound(model, c);
      RemovedFromMap(model, c);
      n := if c in connections then 1 else 0;
      connections := connections - {c};
      model := RemoveNow(model, c);
    }

    /** `removeConnection`, called by `handleClose` on loop `l`. */
    method RemoveConnection(l: LoopId, c: ConnId)
      requires Valid() && c in model.peers && CanRemove(model, l, c)
      requires model.peers[c].conn.closed && model.peers[c].conn.state != TcpConnections.Connecting
      modifies this
      ensures Valid() && model == RemovePeer(old(model), l, c)
      ensures connections == if l == BASE then old(connections) - {c} else old(connections)
    {
      hide Sound, EventLoops.Apply, EventLoops.Enabled;
      if l == BASE {
        var n := RemoveConnectionInLoop(c);
      } else {
        RemoveKeepsSound(model, l, c);
        model := RemovePeer(model, l, c);
      }
    }

    /** The callback of loop `l` that ends in `handleClose` of `c`, and the server's part of it. */
    method OnClosed(l: LoopId, c: ConnId, ghost r: Buffers.ReadResult, ghost w: TcpConnections.WriteResult)
      requires Valid() && Enabled(model, RunHandler(l, r, w)) && CallOf(model, RunHandler(l, r, w)) == Closed(l, c)
      modifies this
      ensures Valid() && model == Apply(old(model), RunHandler(l, r, w))
    {
      hide Sound, Enabled, Apply, RemovePeer, CanRemove, Closing;
      ClosingStep(model, l, r, w);
      model := Closing(model, l);
      RemoveConnection(l, c);
    }

    /** The task that another loop's `removeConnection` queued. */
    method OnRemovalTask(c: ConnId, ghost w: TcpConnections.WriteResult)
      requires Valid() && Enabled(model, RunTask(BASE, w)) && CallOf(model, RunTask(BASE, w)) == RemovalTask(c)
      modifies this
      ensures Valid() && model == Apply(old(model), RunTask(BASE, w))
    {
      hide Sound, Enabled, Apply, RemoveNow, CanPost, Taken;
      RemovalStep(model, w);
      model := Taken(model, BASE);
      var n := RemoveConnectionInLoop(c);
    }

    /** Any step in which nobody calls the server. */
    ghost method Elsewhere(s: Step)
      requires Valid() && Enabled(model, s) && CallOf(model, s) == NoCall
      modifies this`model
      ensures Valid() && model == Apply(old(model), s)
    {
      hide Sound, Enabled, Apply, CallOf;
      StepKeepsSound(model, s);
      MapUntouched(model, s);
      model := Apply(model, s);
    }
  }

  /** What the server is called for: a new connection, a closed one, or a queued removal. */
  datatype Call =
    | NoCall
    | Accepted(home: LoopId, config: TcpConnections.Config)
    | Closed(l: LoopId, c: ConnId)
    | RemovalTask(c: ConnId)

  function CallOf(y: Server, s: Step): Call
    requires Enabled(y, s)
  {
    match s
    case Accept(home, config) => Accepted(home, config)
    case RunHandler(l, r, _) => if Closes(y.dispatch[l][0].1, r) then Closed(l, y.dispatch[l][0].0) else NoCall
    case RunTask(l, _) => if y.loops[l].batch[0].RemoveInLoop? then RemovalTask(y.loops[l].batch[0].c) else NoCall
    case _ => NoCall
  }

  lemma MapUntouched(y: Server, s: Step)
    requires Enabled(y, s) && CallOf(y, s) == NoCall
    ensures Apply(y, s).connections == y.connections && Apply(y, s).nextConnId == y.nextConnId
  {
    hide EventLoops.Apply, EventLoops.Enabled, RemovePeer, RemoveNow;
    hide TcpConnections.HandleClose, TcpConnections.ConnectDestroyed, TcpConnections.ShutdownInLoop,
         TcpConnections.SendInLoop, TcpConnections.Send, TcpConnections.Shutdown, TcpConnections.HandleWrite,
         TcpConnections.HandleRead;
  }

  /** The server as `handleClose` of the next callback of loop `l` leaves it, before the removal. */
  function Closing(y: Server, l: LoopId): Server
    requires l in y.dispatch && y.dispatch[l] != [] && y.dispatch[l][0].0 in y.peers
    requires TcpConnections.Open(y.peers[y.dispatch[l][0].0].conn.state)
  {
    var c := y.dispatch[l][0].0;
    Update(y.(dispatch := y.dispatch[l := y.dispatch[l][1..]]), c, TcpConnections.HandleClose(y.peers[c].conn))
  }

  ghost predicate ReadyToClose(y: Server, l: LoopId, c: ConnId) {
    && c in y.peers && y.peers[c].conn.closed && y.peers[c].conn.state != TcpConnections.Connecting
    && CanRemove(y, l, c) && Sound(y)
  }

  lemma ClosingStep(y: Server, l: LoopId, r: Buffers.ReadResult, w: TcpConnections.WriteResult)
    requires Enabled(y, RunHandler(l, r, w)) && Closes(y.dispatch[l][0].1, r)
    requires Sound(y)
    ensures l in y.dispatch && y.dispatch[l] != [] && y.dispatch[l][0].0 in y.peers
    ensures TcpConnections.Open(y.peers[y.dispatch[l][0].0].conn.state)
    ensures ReadyToClose(Closing(y, l), l, y.dispatch[l][0].0)
    ensures Apply(y, RunHandler(l, r, w)) == RemovePeer(Closing(y, l), l, y.dispatch[l][0].0)
    ensures Closing(y, l).connections == y.connections && Closing(y, l).nextConnId == y.nextConnId
  {
    hide EventLoops.Sound, EventLoops.Enabled, EventLoops.Apply, LoopsSound, PeersSound, StagesFit;
    hide RemovePeer, CanRemove, TcpConnections.HandleClose;
    var es := y.dispatch[l];
    forall e | e in es[1..] ensures HandlerFits(y, l, e) {
      assert e in es;
    }
    assert HandlerFits(y, l, es[0]);
    hide QueuesFit;
    DispatchingNow(y, l);
    NewDispatchKeepsSound(y, l, es[1..]);
    var x := y.(dispatch := y.dispatch[l := es[1..]]);
    SameRemove(y, x, l, es[0].0);
    hide Sound;
    ClosedNow(x, l, es[0].0);
  }

  lemma SameRemove(y: Server, x: Server, l: LoopId, c: ConnId)
    requires x == y.(dispatch := x.dispatch)
    ensures CanRemove(x, l, c) <==> CanRemove(y, l, c)
  {
  }

  lemma DispatchingNow(y: Server, l: LoopId)
    requires Sound(y) && l in y.loops && l in y.dispatch && y.dispatch[l] != []
    ensures y.loops[l].phase == EventLoops.Dispatching
  {
    hide QueuesFit, PeersSound, EventLoops.Sound;
  }

  lemma ClosedNow(y: Server, l: LoopId, c: ConnId)
    requires Sound(y) && c in y.peers && TcpConnections.Open(y.peers[c].conn.state) && CanRemove(y, l, c)
    ensures ReadyToClose(Update(y, c, TcpConnections.HandleClose(y.peers[c].conn)), l, c)
  {
    hide Sound, ConnSound, TcpConnections.EndsWithDown, EventLoops.Enabled, EventLoops.Apply;
    PeerSound(y, c);
    CloseSound(y.peers[c].conn);
    SameStateKeepsSound(y, c, TcpConnections.HandleClose(y.peers[c].conn));
  }

  ghost predicate ReadyToRemove(y: Server, c: ConnId) {
    CanRemoveNow(y, c) && y.peers[c].conn.closed && y.peers[c].conn.state != TcpConnections.Connecting && Sound(y)
  }

  lemma RemovalStep(y: Server, w: TcpConnections.WriteResult)
    requires Enabled(y, RunTask(BASE, w)) && y.loops[BASE].batch[0].RemoveInLoop?
    requires Sound(y)
    ensures HasTask(y, BASE) && ReadyToRemove(Taken(y, BASE), y.loops[BASE].batch[0].c)
    ensures Apply(y, RunTask(BASE, w)) == RemoveNow(Taken(y, BASE), y.loops[BASE].batch[0].c)
    ensures Taken(y, BASE).connections == y.connections && Taken(y, BASE).nextConnId == y.nextConnId
  {
    hide LoopsSound, QueuesFit, PeersSound, StagesFit, EventLoops.Apply, CanPost, RemoveNow, TaskFits;
    var l, task := y.loops[BASE], y.loops[BASE].batch[0];
    TakenSound(y, BASE);
    hide Sound;
    RemovalFits(Taken(y, BASE), task);
  }

  lemma RemovalFits(y: Server, task: Task)
    requires TaskFits(y, BASE, task) && task.RemoveInLoop?
    ensures y.peers[task.c].conn.closed && y.peers[task.c].conn.state != TcpConnections.Connecting
  {
  }

  lemma TakenSound(y: Server, l: LoopId)
    requires Sound(y) && HasTask(y, l) && !y.loops[l].batch[0].Establish?
    ensures Sound(Taken(y, l)) && TaskFits(Taken(y, l), l, y.loops[l].batch[0])
  {
    hide EventLoops.Sound, EventLoops.Apply, QueuesFit, PeersSound, StagesFit, TaskFits, Queue;
    TakenQueue(y.loops[l]);
    QueueShrinks(y, l, EventLoops.Apply(y.loops[l], EventLoops.RunNext), y.loops[l].batch[0]);
  }

  /** What the server is called for along a run. */
  ghost function Calls(y: Server, steps: seq<Step>): seq<Call>
    requires Play(y, steps).Some?
    decreases |steps|
  {
    if steps == [] then [] else [CallOf(y, steps[0])] + Calls(Apply(y, steps[0]), steps[1..])
  }

  lemma {:induction false} PlayNext(y: Server, steps: seq<Step>, n: nat)
    requires Play(y, steps).Some? && n < |steps|
    ensures Play(y, steps[..n]).Some? && |Calls(y, steps)| == |steps|
    ensures var z := Play(y, steps[..n]).value;
            && Enabled(z, steps[n]) && Play(y, steps[..n + 1]) == Some(Apply(z, steps[n]))
            && Calls(y, steps)[n] == CallOf(z, steps[n])
    decreases n
  {
    hide Enabled, Apply, CallOf;
    if n == 0 {
      assert steps[..1][1..] == [];
      CallsLength(y, steps);
    } else {
      PlayNext(Apply(y, steps[0]), steps[1..], n - 1);
      assert steps[..n][1..] == steps[1..][..n - 1];
      assert steps[..n + 1][1..] == steps[1..][..n];
    }
  }

  lemma {:induction false} CallsLength(y: Server, steps: seq<Step>)
    requires Play(y, steps).Some?
    ensures |Calls(y, steps)| == |steps|
    decreases |steps|
  {
    hide Enabled, Apply, CallOf;
    if steps != [] {
      CallsLength(Apply(y, steps[0]), steps[1..]);
    }
  }

  /** THE OBJECT FOLLOWS THE RUN: along any run of the loops and the other threads, called as the run calls
      it, the server object keeps the map and the numbering of the model. */
  method RunServer(ghost ids: set<LoopId>, ghost steps: seq<Step>, calls: seq<Call>) returns (server: TcpServer)
    requires Play(NewServer(ids), steps).Some? && calls == Calls(NewServer(ids), steps)
    ensures fresh(server) && server.Valid() && Some(server.model) == Play(NewServer(ids), steps)
  {
    hide Enabled, Apply, Sound, CallOf, NewServer;
    server := new TcpServer(ids);
    CallsLength(NewServer(ids), steps);
    for n := 0 to |calls|
      invariant fresh(server) && server.Valid() && Some(server.model) == Play(NewServer(ids), steps[..n])
    {
      PlayNext(NewServer(ids), steps, n);
      Called(server.model, steps[n]);
      match calls[n] {
        case NoCall => server.Elsewhere(steps[n]);
        case Accepted(home, config) => var c := server.AcceptConnection(home, config);
        case Closed(l, c) => server.OnClosed(l, c, steps[n].r, steps[n].w);
        case RemovalTask(c) => server.OnRemovalTask(c, steps[n].w);
      }
    }
    assert steps[..|steps|] == steps;
  }

  /** Which step a call belongs to. */
  lemma Called(y: Server, s: Step)
    requires Enabled(y, s)
    requires Sound(y)
    ensures CallOf(y, s).Accepted? ==>
              s == Accept(CallOf(y, s).home, CallOf(y, s).config) && CanAccept(y, s.home)
              && Apply(y, s) == NewConnection(y, s.home, s.config)
    ensures CallOf(y, s).Closed? ==> s.RunHandler? && s.l == CallOf(y, s).l
    ensures CallOf(y, s).RemovalTask? ==> s.RunTask? && s.l == BASE
  {
    hide EventLoops.Sound, EventLoops.Enabled, EventLoops.Apply, LoopsSound, PeersSound, StagesFit, NewConnection;
    if s.RunTask? && CallOf(y, s).RemovalTask? {
      InBatch(y, s.l);
    }
  }

  lemma RemovedFromMap(y: Server, c: ConnId)
    requires CanRemoveNow(y, c)
    ensures RemoveNow(y, c).connections == y.connections - {c} && RemoveNow(y, c).nextConnId == y.nextConnId
  {
    hide EventLoops.Apply, EventLoops.Enabled;
  }

}
