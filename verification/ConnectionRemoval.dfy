/** How often `removeConnectionInLoop` is called for a connection, and when its `assert(n == 1)` holds:
    the calls are counted along the runs of the server. */
module ConnectionRemovals {
  import opened Text
  import opened TcpServers
  import Buffers
  import TcpConnections
  import EventLoops

  /** `closings` counts the calls of `handleClose`, `erased` those of `removeConnectionInLoop`; `missed`
      says whether one of the latter found its connection gone from the map. */
  datatype Account = Account(server: Server, closings: multiset<ConnId>, erased: multiset<ConnId>, missed: bool)

  function NewAccount(ids: set<LoopId>): Account {
    Account(NewServer(ids), multiset{}, multiset{}, false)
  }

  /** The connection whose `handleClose` a step calls. */
  function ClosedBy(y: Server, s: Step): Option<ConnId>
    requires Enabled(y, s)
  {
    if s.RunHandler? && Closes(y.dispatch[s.l][0].1, s.r) then Some(y.dispatch[s.l][0].0) else None
  }

  /** The connection whose `removeConnectionInLoop` a step calls: directly from `handleClose` on the
      base loop, or as a task there. */
  function ErasedBy(y: Server, s: Step): Option<ConnId>
    requires Enabled(y, s)
  {
    match s
    case RunHandler(l, _, _) => if l == BASE then ClosedBy(y, s) else None
    case RunTask(l, _) =>
      var task := y.loops[l].batch[0];
      if task.RemoveInLoop? then Some(task.c) else None
    case _ => None
  }

  function Count(c: Option<ConnId>): multiset<ConnId> {
    if c.Some? then multiset{c.value} else multiset{}
  }

  function Next(a: Account, s: Step): Account
    requires Enabled(a.server, s)
  {
    var erased := ErasedBy(a.server, s);
    Account(Apply(a.server, s), a.closings + Count(ClosedBy(a.server, s)), a.erased + Count(erased),
            a.missed || (erased.Some? && erased.value !in a.server.connections))
  }

  function PlayAccount(a: Account, steps: seq<Step>): (r: Option<Account>)
    ensures r.Some? <==> Play(a.server, steps).Some?
    ensures r.Some? ==> Some(r.value.server) == Play(a.server, steps)
    decreases |steps|
  {
    if steps == [] then Some(a)
    else if Enabled(a.server, steps[0]) then PlayAccount(Next(a, steps[0]), steps[1..])
    else None
  }

  /** The removals of `c` that wait in the base loop's queue. */
  function Waiting(y: Server, c: ConnId): nat
    requires BASE in y.loops
  {
    multiset(Queue(y.loops[BASE]))[RemoveInLoop(c)]
  }

  /** Every `handleClose` leads to one removal, done or waiting; the map holds exactly the connections
      never removed; a removal misses exactly when it is a second one. */
  ghost predicate Balanced(a: Account) {
    && BASE in a.server.loops
    && (forall c :: a.closings[c] == a.erased[c] + Waiting(a.server, c))
    && MapExact(a)
    && (a.missed <==> Twice(a.erased))
  }

  ghost predicate MapExact(a: Account) {
    && (forall c :: c in a.server.connections <==> c in a.server.peers && a.erased[c] == 0)
    && (forall c :: c in a.erased ==> c in a.server.peers)
  }

  ghost predicate Twice(erased: multiset<ConnId>) {
    exists c :: erased[c] >= 2
  }

  // ---- what a step does to the base queue, the map and the connections ----

  /** `y` to `z` with these calls of `handleClose` and `removeConnectionInLoop`. */
  ghost predicate Moved(y: Server, z: Server, closed: Option<ConnId>, erased: Option<ConnId>) {
    && BASE in y.loops && BASE in z.loops
    && (forall c :: Waiting(z, c) + Count(erased)[c] == Waiting(y, c) + Count(closed)[c])
    && z.connections == y.connections - (if erased.Some? then {erased.value} else {})
    && z.peers.Keys == y.peers.Keys
    && (erased.Some? ==> erased.value in y.peers)
  }

  lemma SameQueueMoves(y: Server, l: LoopId, m: Loop)
    requires BASE in y.loops && l in y.loops && Queue(m) == Queue(y.loops[l])
    ensures Moved(y, y.(loops := y.loops[l := m]), None, None)
  {
    hide Queue;
  }

  lemma PostMoves(y: Server, target: LoopId, who: EventLoops.Thread, task: Task)
    requires BASE in y.loops && CanPost(y, target, who, task) && EventLoops.Sound(y.loops[target])
    requires task.RemoveInLoop? ==> target == BASE
    ensures Moved(y, Post(y, target, who, task), if task.RemoveInLoop? then Some(task.c) else None, None)
  {
    PushedQueue(y.loops[target], who, task);
    hide Queue, EventLoops.Sound, EventLoops.Apply, EventLoops.Enabled;
    var z := Post(y, target, who, task);
    assert multiset(Queue(z.loops[target])) == multiset(Queue(y.loops[target])) + multiset{task};
  }

  lemma TakenMoves(y: Server, l: LoopId)
    requires Sound(y) && HasTask(y, l)
    ensures var task := y.loops[l].batch[0];
            && (task.RemoveInLoop? ==> l == BASE && task.c in y.peers)
            && forall c :: Waiting(y, c) == Waiting(Taken(y, l), c) + (if task == RemoveInLoop(c) then 1 else 0)
  {
    hide EventLoops.Sound, EventLoops.Apply, EventLoops.Enabled, PeersSound, HandlerFits, Queue, Waiting;
    InBatch(y, l);
    TakenWaits(y, l);
  }

  lemma TakenWaits(y: Server, l: LoopId)
    requires LoopsSound(y) && HasTask(y, l)
    ensures var task := y.loops[l].batch[0];
            l != BASE ==> forall c :: Waiting(y, c) == Waiting(Taken(y, l), c)
    ensures var task := y.loops[l].batch[0];
            l == BASE ==>
              forall c :: Waiting(y, c) == Waiting(Taken(y, l), c) + (if task == RemoveInLoop(c) then 1 else 0)
  {
    hide EventLoops.Sound, EventLoops.Apply, Queue;
    if l == BASE {
      TakenQueue(y.loops[BASE]);
      CountHead(y.loops[BASE].batch[0], Queue(Taken(y, BASE).loops[BASE]));
    }
  }

  lemma CountHead(task: Task, rest: seq<Task>)
    ensures forall u: Task :: multiset([task] + rest)[u] == multiset(rest)[u] + (if task == u then 1 else 0)
  {
    assert multiset([task] + rest) == multiset{task} + multiset(rest);
  }

  lemma RemoveNowMoves(y: Server, c: ConnId)
    requires BASE in y.loops && (forall k :: k in y.loops ==> EventLoops.Sound(y.loops[k])) && CanRemoveNow(y, c)
    ensures Moved(y, RemoveNow(y, c), Some(c), Some(c))
  {
    hide Queue, EventLoops.Sound, EventLoops.Apply, EventLoops.Enabled;
    PostMoves(y.(connections := y.connections - {c}), y.peers[c].home, ThreadOf(BASE, y.peers[c].home), Destroy(c));
  }

  lemma RemovePeerMoves(y: Server, l: LoopId, c: ConnId)
    requires BASE in y.loops && (forall k :: k in y.loops ==> EventLoops.Sound(y.loops[k]))
    requires CanRemove(y, l, c) && c in y.peers
    ensures Moved(y, RemovePeer(y, l, c), Some(c), if l == BASE then Some(c) else None)
  {
    hide Queue, EventLoops.Sound, EventLoops.Apply, EventLoops.Enabled, Moved;
    if l == BASE {
      RemoveNowMoves(y, c);
    } else {
      PostMoves(y, BASE, EventLoops.Other(l), RemoveInLoop(c));
    }
  }

  lemma ClosingMoves(y: Server, l: LoopId, c: ConnId)
    requires BASE in y.loops && (forall k :: k in y.loops ==> EventLoops.Sound(y.loops[k]))
    requires c in y.peers && TcpConnections.Open(y.peers[c].conn.state) && CanRemove(y, l, c)
    ensures CanRemove(Update(y, c, TcpConnections.HandleClose(y.peers[c].conn)), l, c)
    ensures Moved(y, RemovePeer(Update(y, c, TcpConnections.HandleClose(y.peers[c].conn)), l, c),
                  Some(c), if l == BASE then Some(c) else None)
  {
    hide EventLoops.Sound, EventLoops.Apply, EventLoops.Enabled, Queue, TcpConnections.HandleClose, RemovePeer;
    RemovePeerMoves(Update(y, c, TcpConnections.HandleClose(y.peers[c].conn)), l, c);
  }

  lemma HandlerMoves(y: Server, l: LoopId, r: Buffers.ReadResult, w: TcpConnections.WriteResult)
    requires Enabled(y, RunHandler(l, r, w))
    requires Sound(y)
    ensures var s := RunHandler(l, r, w); Moved(y, Apply(y, s), ClosedBy(y, s), ErasedBy(y, s))
  {
    HandlerIsOpen(y, l);
    hide LoopsSound, QueuesFit, PeersSound, StagesFit, EventLoops.Apply, EventLoops.Enabled, Handle, Moved, Waiting;
    var (c, h) := y.dispatch[l][0];
    var x := y.(dispatch := y.dispatch[l := y.dispatch[l][1..]]);
    SoundLoops(y);
    hide Sound;
    HandleMoves(x, l, c, h, r, w);
    var s := RunHandler(l, r, w);
    OnlyDispatch(y, x, Apply(y, s), ClosedBy(y, s), ErasedBy(y, s));
  }

  lemma SoundLoops(y: Server)
    requires Sound(y)
    ensures BASE in y.loops && forall k :: k in y.loops ==> EventLoops.Sound(y.loops[k])
  {
    hide QueuesFit, PeersSound, StagesFit, EventLoops.Sound;
  }

  lemma OnlyDispatch(y: Server, x: Server, z: Server, closed: Option<ConnId>, erased: Option<ConnId>)
    requires x == y.(dispatch := x.dispatch) && Moved(x, z, closed, erased)
    ensures Moved(y, z, closed, erased)
  {
  }

  lemma HandleMoves(y: Server, l: LoopId, c: ConnId, h: Handler, r: Buffers.ReadResult, w: TcpConnections.WriteResult)
    requires BASE in y.loops && (forall k :: k in y.loops ==> EventLoops.Sound(y.loops[k]))
    requires c in y.peers && TcpConnections.Open(y.peers[c].conn.state) && (Closes(h, r) ==> CanRemove(y, l, c))
    requires h == OnWrite ==> TcpConnections.CanAnswer(w, y.peers[c].conn.output)
    ensures Moved(y, Handle(y, l, c, h, r, w), if Closes(h, r) then Some(c) else None,
                  if Closes(h, r) && l == BASE then Some(c) else None)
  {
    hide EventLoops.Sound, EventLoops.Apply, EventLoops.Enabled, Queue, TcpConnections.HandleWrite,
         TcpConnections.HandleRead, TcpConnections.HandleClose, RemovePeer, CanRemove;
    if Closes(h, r) {
      ClosingMoves(y, l, c);
    }
  }

  lemma TaskMoves(y: Server, l: LoopId, w: TcpConnections.WriteResult)
    requires Sound(y) && Enabled(y, RunTask(l, w))
    ensures Moved(y, Apply(y, RunTask(l, w)), None, ErasedBy(y, RunTask(l, w)))
  {
    hide EventLoops.Sound, EventLoops.Apply, Queue, QueuesFit, PeersSound, Execute, Waiting, Taken, CanExecute;
    TakenMoves(y, l);
    TakenIsLoops(y, l);
    ExecuteMoves(Taken(y, l), y.loops[l].batch[0], w);
  }

  lemma TakenIsLoops(y: Server, l: LoopId)
    requires LoopsSound(y) && HasTask(y, l)
    ensures Taken(y, l) == y.(loops := Taken(y, l).loops) && BASE in Taken(y, l).loops
    ensures forall k :: k in Taken(y, l).loops ==> EventLoops.Sound(Taken(y, l).loops[k])
  {
    EventLoops.StepKeepsSound(y.loops[l], EventLoops.RunNext);
    hide EventLoops.Sound, EventLoops.Apply, EventLoops.Enabled;
  }

  /** What carrying out a task adds to the queue: nothing that removes. */
  lemma ExecuteMoves(y: Server, task: Task, w: TcpConnections.WriteResult)
    requires BASE in y.loops && (forall k :: k in y.loops ==> EventLoops.Sound(y.loops[k])) && CanExecute(y, task, w)
    ensures var z := Execute(y, task, w);
            && BASE in z.loops && (forall c :: Waiting(z, c) == Waiting(y, c)) && z.peers.Keys == y.peers.Keys
            && z.connections == y.connections - (if task.RemoveInLoop? then {task.c} else {})
  {
    hide EventLoops.Sound, EventLoops.Apply, EventLoops.Enabled, Queue, TcpConnections.SendInLoop,
         TcpConnections.ShutdownInLoop, TcpConnections.ConnectDestroyed, TcpConnections.ConnectEstablished, RemoveNow;
    if task.RemoveInLoop? {
      RemoveNowMoves(y, task.c);
    }
  }

  /** Every step but an accepted connection. */
  lemma StepMoves(y: Server, s: Step)
    requires Sound(y) && Enabled(y, s) && !s.Accept?
    ensures Moved(y, Apply(y, s), ClosedBy(y, s), ErasedBy(y, s))
  {
    hide Sound, Apply, Moved;
    match s {
      case RunHandler(l, r, w) => HandlerMoves(y, l, r, w);
      case RunTask(l, w) => TaskMoves(y, l, w);
      case _ => OtherMoves(y, s);
    }
  }

  lemma OtherMoves(y: Server, s: Step)
    requires Sound(y) && Enabled(y, s) && !s.Accept? && !s.RunHandler? && !s.RunTask?
    ensures Moved(y, Apply(y, s), None, None)
  {
    SoundLoops(y);
    hide Sound, Moved, Apply, EventLoops.Sound, EventLoops.Enabled;
    if s.LoopMove? || s.PollReturns? {
      LoopMoves(y, s);
    } else if s.ForeignPush? {
      PushMoves(y, s.t);
    } else {
      KeepsView(y, s);
      SameView(y, Apply(y, s));
    }
  }

  lemma KeepsView(y: Server, s: Step)
    requires Enabled(y, s) && !s.Accept? && !s.RunHandler? && !s.RunTask?
    requires !s.LoopMove? && !s.PollReturns? && !s.ForeignPush?
    ensures var z := Apply(y, s); z.loops == y.loops && z.connections == y.connections && z.peers.Keys == y.peers.Keys
  {
    hide EventLoops.Enabled, TcpConnections.Send, TcpConnections.Shutdown;
  }

  lemma LoopMoves(y: Server, s: Step)
    requires Enabled(y, s) && (s.LoopMove? || s.PollReturns?)
    requires BASE in y.loops && forall k :: k in y.loops ==> EventLoops.Sound(y.loops[k])
    ensures Moved(y, Apply(y, s), None, None)
  {
    hide EventLoops.Sound, EventLoops.Apply, Moved;
    var m := if s.LoopMove? then s.m else EventLoops.PollReturns;
    QuietQueue(y.loops[s.l], m);
    var x := y.(loops := y.loops[s.l := EventLoops.Apply(y.loops[s.l], m)]);
    SameQueueMoves(y, s.l, x.loops[s.l]);
    SameView(x, Apply(y, s));
    MovedOn(y, x, Apply(y, s));
  }

  lemma PushMoves(y: Server, t: nat)
    requires Enabled(y, ForeignPush(t))
    requires BASE in y.loops && forall k :: k in y.loops ==> EventLoops.Sound(y.loops[k])
    ensures Moved(y, Apply(y, ForeignPush(t)), None, None)
  {
    hide EventLoops.Sound, EventLoops.Apply, EventLoops.Enabled, Moved;
    var x := y.(stage := y.stage - {t});
    PostMoves(x, y.peers[y.stage[t].c].home, EventLoops.Other(t), TaskOf(y.stage[t]));
    MovedFrom(y, x, Apply(y, ForeignPush(t)));
  }

  /** Nothing that counts has changed. */
  lemma SameView(y: Server, z: Server)
    requires BASE in y.loops && z.loops == y.loops && z.connections == y.connections && z.peers.Keys == y.peers.Keys
    ensures Moved(y, z, None, None)
  {
  }

  lemma MovedOn(y: Server, x: Server, z: Server)
    requires Moved(y, x, None, None) && Moved(x, z, None, None)
    ensures Moved(y, z, None, None)
  {
    hide Waiting;
  }

  lemma MovedFrom(y: Server, x: Server, z: Server)
    requires x == y.(stage := x.stage) && Moved(x, z, None, None)
    ensures Moved(y, z, None, None)
  {
  }

  /** A first removal finds its connection, a second one does not. */
  lemma MissedTwice(before: multiset<ConnId>, erased: Option<ConnId>)
    ensures Twice(before + Count(erased)) <==> Twice(before) || (erased.Some? && before[erased.value] >= 1)
  {
    var after := before + Count(erased);
    if Twice(after) {
      var c :| after[c] >= 2;
      assert before[c] < 2 ==> erased == Some(c);
    }
    if Twice(before) {
      var c :| before[c] >= 2;
      assert after[c] >= 2;
    }
    if erased.Some? && before[erased.value] >= 1 {
      assert after[erased.value] >= 2;
    }
  }

  lemma MapStaysExact(a: Account, b: Account, closed: Option<ConnId>, erased: Option<ConnId>)
    requires MapExact(a) && Moved(a.server, b.server, closed, erased) && b.erased == a.erased + Count(erased)
    ensures MapExact(b)
    ensures erased.Some? ==> (erased.value !in a.server.connections <==> a.erased[erased.value] >= 1)
  {
    hide Waiting;
    if erased.None? {
      assert b.erased == a.erased;
    } else {
      hide Count;
      CountedOnce(a.erased, b.erased, erased.value);
    }
  }

  lemma CountedOnce(before: multiset<ConnId>, after: multiset<ConnId>, c: ConnId)
    requires after == before + Count(Some(c))
    ensures forall d :: after[d] == if d == c then before[d] + 1 else before[d]
  {
  }

  lemma MovedKeepsBalanced(a: Account, b: Account, closed: Option<ConnId>, erased: Option<ConnId>)
    requires Balanced(a) && Moved(a.server, b.server, closed, erased)
    requires b.closings == a.closings + Count(closed) && b.erased == a.erased + Count(erased)
    requires b.missed <==> a.missed || (erased.Some? && erased.value !in a.server.connections)
    ensures Balanced(b)
  {
    MissedTwice(a.erased, erased);
    MapStaysExact(a, b, closed, erased);
    hide Waiting, MapExact, Twice, Count;
    forall c ensures b.closings[c] == b.erased[c] + Waiting(b.server, c) {
      assert b.closings[c] == a.closings[c] + Count(closed)[c] && b.erased[c] == a.erased[c] + Count(erased)[c];
    }
  }

  lemma AcceptKeepsBalanced(a: Account, home: LoopId, config: TcpConnections.Config)
    requires Balanced(a) && Sound(a.server) && CanAccept(a.server, home)
    ensures Balanced(Next(a, Accept(home, config)))
  {
    hide QueuesFit, PeersSound, LoopsSound, EventLoops.Enabled, EventLoops.Apply;
    FreshId(a.server, a.server.nextConnId);
    AcceptedWaits(a.server, home, config);
    hide Sound, NewConnection, Balanced, Waiting, CanPost;
    assert a.closings + Count(None) == a.closings && a.erased + Count(None) == a.erased;
    hide Count;
    NewcomerBalanced(a, Next(a, Accept(home, config)), a.server.nextConnId);
  }

  lemma NewcomerBalanced(a: Account, b: Account, c: ConnId)
    requires Balanced(a) && c !in a.server.peers && BASE in b.server.loops
    requires b.closings == a.closings && b.erased == a.erased && b.missed == a.missed
    requires forall d :: Waiting(b.server, d) == Waiting(a.server, d)
    requires b.server.connections == a.server.connections + {c} && b.server.peers.Keys == a.server.peers.Keys + {c}
    ensures Balanced(b)
  {
    hide Waiting;
    assert a.erased[c] == 0;
  }

  lemma AcceptedWaits(y: Server, home: LoopId, config: TcpConnections.Config)
    requires LoopsSound(y) && CanAccept(y, home)
    ensures var z := NewConnection(y, home, config);
            && BASE in z.loops && (forall c :: Waiting(z, c) == Waiting(y, c))
            && z.connections == y.connections + {y.nextConnId} && z.peers.Keys == y.peers.Keys + {y.nextConnId}
  {
    hide EventLoops.Sound, EventLoops.Enabled, EventLoops.Apply, TcpConnections.ConnectEstablished, Waiting;
    var z := NewConnection(y, home, config);
    if home != BASE {
      PostMoves(y, home, EventLoops.Other(BASE), Establish(y.nextConnId));
      SameLoopsWait(z, Post(y, home, EventLoops.Other(BASE), Establish(y.nextConnId)));
    } else {
      SameLoopsWait(z, y);
    }
  }

  lemma SameLoopsWait(y: Server, z: Server)
    requires BASE in y.loops && y.loops == z.loops
    ensures forall c :: Waiting(y, c) == Waiting(z, c)
  {
  }

  lemma StepKeepsBalanced(a: Account, s: Step)
    requires Balanced(a) && Sound(a.server) && Enabled(a.server, s)
    ensures Balanced(Next(a, s))
  {
    hide Balanced, Moved, Sound, Apply, CanAccept, CanRunHandler, CanExecute, HasTask;
    match s {
      case Accept(home, config) => AcceptKeepsBalanced(a, home, config);
      case _ =>
        StepMoves(a.server, s);
        MovedKeepsBalanced(a, Next(a, s), ClosedBy(a.server, s), ErasedBy(a.server, s));
    }
  }

  lemma {:induction false} PlayKeepsBalanced(a: Account, steps: seq<Step>)
    requires Balanced(a) && Sound(a.server) && PlayAccount(a, steps).Some?
    ensures Balanced(PlayAccount(a, steps).value)
    decreases |steps|
  {
    hide Balanced, Sound, Apply, Enabled;
    if steps != [] {
      StepKeepsBalanced(a, steps[0]);
      StepKeepsSound(a.server, steps[0]);
      PlayKeepsBalanced(Next(a, steps[0]), steps[1..]);
    }
  }

  /** EACH CONNECTION IS REMOVED ONCE PER `handleClose`. Over every interleaving: the map holds exactly
      the connections none of whose closings has been carried out, and the assertion in
      `removeConnectionInLoop` has failed exactly when two closings of one connection have. So it never
      fails when `handleClose` is delivered at most once to each connection. */
  lemma RemovalCount(ids: set<LoopId>, steps: seq<Step>)
    requires PlayAccount(NewAccount(ids), steps).Some?
    ensures var a := PlayAccount(NewAccount(ids), steps).value;
            && BASE in a.server.loops
            && (forall c :: c in a.server.connections
                  <==> c in a.server.peers && a.closings[c] == Waiting(a.server, c))
            && (a.missed <==> exists c :: a.closings[c] >= 2 + Waiting(a.server, c))
            && ((forall c :: a.closings[c] <= 1) ==> !a.missed)
  {
    hide Sound, NewServer, PlayAccount, Waiting;
    NewServerIsSound(ids);
    NewIsBalanced(ids);
    PlayKeepsBalanced(NewAccount(ids), steps);
    var a := PlayAccount(NewAccount(ids), steps).value;
    assert Balanced(a);
    assert forall c :: a.closings[c] == a.erased[c] + Waiting(a.server, c);
    if a.missed {
      var c :| a.erased[c] >= 2;
      assert a.closings[c] >= 2 + Waiting(a.server, c);
    }
  }

  lemma NewIsBalanced(ids: set<LoopId>)
    ensures Balanced(NewAccount(ids))
  {
    var y := NewServer(ids);
    assert Queue(y.loops[BASE]) == [];
  }

  // ---- when `handleClose` comes once ----

  /** A message taken after `handleClose` turns the writing interest on again, so the descriptor is
      polled again: unless the write takes it whole or fails for good. */
  lemma SendAfterCloseRegisters(c: TcpConnections.Conn, message: string, w: TcpConnections.WriteResult)
    requires TcpConnections.Open(c.state) && c.events == {} && c.output == "" && !c.registered
    requires TcpConnections.CanAnswer(w, message)
    ensures TcpConnections.SendInLoop(c, message, w).registered
            <==> if w.Wrote? then w.n < |message| else !TcpConnections.Fatal(w) && message != ""
  {
    if !TcpConnections.Fatal(w) {
      TcpConnections.SendInLoopFields(c, message, w);
    }
  }

  predicate MayClose(h: Handler) {
    h == OnClose || h == OnRead
  }

  /** No connection has two callbacks that can end in `handleClose`. */
  predicate OneCloser(es: seq<(ConnId, Handler)>) {
    forall i, j | 0 <= i < j < |es| :: MayClose(es[i].1) && MayClose(es[j].1) ==> es[i].0 != es[j].0
  }

  /** A step of which both can be said beforehand: the poller's report gives no connection two callbacks
      that can close, and no message is left waiting on a connection after its `handleClose`. */
  predicate Tidy(y: Server, s: Step)
    requires Enabled(y, s)
  {
    match s
    case PollReturns(_, ready) => OneCloser(AllHandlers(ready))
    case LoopSend(c, message, w) =>
      y.peers[c].conn.state == TcpConnections.Connected ==> LeavesNothing(y.peers[c].conn, message, w)
    case RunTask(l, w) =>
      var task := y.loops[l].batch[0];
      task.SendTask? ==>
        LeavesNothing(y.peers[task.c].conn, task.message, w)
    case _ => true
  }

  /** On a closed connection: it is down, or the message is empty, or a direct write takes all of it or
      fails for good. */
  predicate LeavesNothing(c: TcpConnections.Conn, message: string, w: TcpConnections.WriteResult) {
    c.closed ==>
      || c.state == TcpConnections.Disconnected
      || message == ""
      || (c.Direct() && if w.Wrote? then w.n == |message| else TcpConnections.Fatal(w))
  }

  /** Exactly then no byte of the message is left waiting. */
  lemma LeavesNothingExactly(c: TcpConnections.Conn, message: string, w: TcpConnections.WriteResult)
    requires c.closed && TcpConnections.CanAnswer(w, message)
    ensures LeavesNothing(c, message, w) <==> TcpConnections.SendInLoop(c, message, w).output == c.output
  {
    if c.state != TcpConnections.Disconnected && !(c.Direct() && TcpConnections.Fatal(w)) {
      TcpConnections.SendInLoopFields(c, message, w);
      assert |c.output + message[TcpConnections.DirectlyWritten(c, w)..]| >= |c.output|;
      hide TcpConnections.SendInLoop;
    }
  }

  predicate TidyRun(y: Server, steps: seq<Step>)
    decreases |steps|
  {
    steps != [] && Enabled(y, steps[0]) ==> Tidy(y, steps[0]) && TidyRun(Apply(y, steps[0]), steps[1..])
  }

  /** Off the poller after `handleClose`, and on it before. */
  ghost predicate Tight(c: TcpConnections.Conn) {
    && (c.closed ==> c.events == {} && !c.registered)
    && (TcpConnections.Open(c.state) && !c.closed ==> c.registered && Pollers.READ_EVENTS <= c.events)
  }

  /** The callbacks that can close belong to connections not closed yet. */
  ghost predicate CanClose(es: seq<(ConnId, Handler)>, peers: map<ConnId, Peer>) {
    forall e :: e in es && MayClose(e.1) ==> e.0 in peers && !peers[e.0].conn.closed
  }

  ghost predicate DispatchTight(y: Server) {
    forall l :: l in y.dispatch ==> OneCloser(y.dispatch[l]) && CanClose(y.dispatch[l], y.peers)
  }

  ghost predicate ClosingsExact(a: Account) {
    && (forall c :: c in a.closings ==> c in a.server.peers)
    && (forall c :: c in a.server.peers ==> a.closings[c] == if a.server.peers[c].conn.closed then 1 else 0)
  }

  ghost predicate Orderly(a: Account) {
    AllTight(a.server.peers) && DispatchTight(a.server) && ClosingsExact(a)
  }

  lemma SendTight(c: TcpConnections.Conn, message: string, w: TcpConnections.WriteResult)
    requires Tight(c) && c.state != TcpConnections.Connecting && TcpConnections.CanAnswer(w, message)
    requires LeavesNothing(c, message, w)
    ensures Tight(TcpConnections.SendInLoop(c, message, w))
    ensures TcpConnections.SendInLoop(c, message, w).closed == c.closed
  {
    if c.state != TcpConnections.Disconnected && !(c.Direct() && TcpConnections.Fatal(w)) {
      TcpConnections.SendInLoopFields(c, message, w);
      hide TcpConnections.SendInLoop;
    }
  }

  lemma WriteTight(c: TcpConnections.Conn, w: TcpConnections.WriteResult)
    requires Tight(c) && TcpConnections.Open(c.state) && TcpConnections.CanAnswer(w, c.output)
    ensures Tight(TcpConnections.HandleWrite(c, w)) && TcpConnections.HandleWrite(c, w).closed == c.closed
  {
    assert !c.closed ==> Pollers.In in c.events - {Pollers.Out};
  }

  /** What other callbacks and tasks do to a connection. */
  lemma OthersTight(c: TcpConnections.Conn, r: Buffers.ReadResult)
    requires Tight(c) && (c.state == TcpConnections.Disconnected ==> c.closed)
    requires c.state == TcpConnections.Connecting ==> c.events == {} && !c.closed && !c.registered
    ensures TcpConnections.Open(c.state) && r != Buffers.Data("") ==> Tight(TcpConnections.HandleRead(c, r))
    ensures TcpConnections.Open(c.state) && !c.closed ==> Tight(TcpConnections.HandleClose(c))
    ensures c.closed ==> Tight(TcpConnections.ConnectDestroyed(c))
    ensures c.state == TcpConnections.Connecting ==> Tight(TcpConnections.ConnectEstablished(c))
    ensures c.state != TcpConnections.Connecting ==> Tight(c.(state := TcpConnections.Disconnecting))
  {
  }

  /** What a step does to the connections: all stay tight, and exactly the one whose `handleClose` it
      calls becomes closed, for the first time. */
  ghost predicate ClosesFirst(before: map<ConnId, Peer>, after: map<ConnId, Peer>, closed: Option<ConnId>) {
    && before.Keys <= after.Keys
    && (closed.Some? ==> closed.value in before && !before[closed.value].conn.closed)
    && AllTight(after)
    && (forall c :: c in before ==>
          after[c].home == before[c].home
          && (after[c].conn.closed <==> before[c].conn.closed || closed == Some(c)))
    && (forall c :: c in after && c !in before ==> !after[c].conn.closed)
  }

  ghost predicate AllTight(peers: map<ConnId, Peer>) {
    forall c :: c in peers ==> Tight(peers[c].conn)
  }

  lemma OneChanged(before: map<ConnId, Peer>, c: ConnId, d: TcpConnections.Conn, closed: Option<ConnId>)
    requires AllTight(before) && c in before && Tight(d)
    requires closed.Some? ==> closed.value == c && !before[c].conn.closed
    requires d.closed <==> before[c].conn.closed || closed.Some?
    ensures ClosesFirst(before, before[c := Peer(d, before[c].home)], closed)
  {
    hide Tight;
  }

  lemma NoneChanged(peers: map<ConnId, Peer>)
    requires AllTight(peers)
    ensures ClosesFirst(peers, peers, None)
  {
    hide Tight;
  }

  lemma PeerFacts(y: Server, c: ConnId)
    requires Sound(y) && c in y.peers
    ensures var conn := y.peers[c].conn;
            && (conn.state == TcpConnections.Disconnected ==> conn.closed)
            && (conn.state == TcpConnections.Connecting ==> conn.events == {} && !conn.closed && !conn.registered)
  {
    PeerSound(y, c);
  }

  lemma HandlerCloses(y: Server, l: LoopId, r: Buffers.ReadResult, w: TcpConnections.WriteResult)
    requires Enabled(y, RunHandler(l, r, w))
    requires Sound(y) && AllTight(y.peers) && DispatchTight(y)
    ensures ClosesFirst(y.peers, Apply(y, RunHandler(l, r, w)).peers, ClosedBy(y, RunHandler(l, r, w)))
  {
    hide LoopsSound, QueuesFit, PeersSound, StagesFit, EventLoops.Enabled, EventLoops.Apply, Handle, Tight;
    var (c, h) := y.dispatch[l][0];
    var x := y.(dispatch := y.dispatch[l := y.dispatch[l][1..]]);
    HandlerIsOpen(y, l);
    assert MayClose(h) ==> !y.peers[c].conn.closed by {
      assert y.dispatch[l][0] in y.dispatch[l];
    }
    PeerFacts(y, c);
    hide Sound, DispatchTight, TcpConnections.Open;
    HandleCloses(x, l, c, h, r, w);
  }

  lemma HandlerIsOpen(y: Server, l: LoopId)
    requires Sound(y) && l in y.loops && l in y.dispatch && y.dispatch[l] != []
    ensures var c := y.dispatch[l][0].0;
            c in y.peers && y.peers[c].home == l && TcpConnections.Open(y.peers[c].conn.state)
  {
    hide TaskFits, PeersSound, EventLoops.Sound, TcpConnections.Open;
    assert y.dispatch[l][0] in y.dispatch[l];
    assert HandlerFits(y, l, y.dispatch[l][0]);
  }

  lemma HandleCloses(y: Server, l: LoopId, c: ConnId, h: Handler, r: Buffers.ReadResult, w: TcpConnections.WriteResult)
    requires c in y.peers && (Closes(h, r) ==> CanRemove(y, l, c))
    requires h == OnWrite ==> TcpConnections.CanAnswer(w, y.peers[c].conn.output)
    requires AllTight(y.peers) && TcpConnections.Open(y.peers[c].conn.state)
    requires MayClose(h) ==> !y.peers[c].conn.closed
    ensures ClosesFirst(y.peers, Handle(y, l, c, h, r, w).peers, if Closes(h, r) then Some(c) else None)
  {
    var conn := y.peers[c].conn;
    OthersTight(conn, r);
    if h == OnWrite {
      WriteTight(conn, w);
    }
    var z := Handle(y, l, c, h, r, w);
    hide Tight, EventLoops.Apply, EventLoops.Enabled, TcpConnections.HandleWrite;
    if h == OnWrite {
      OneChanged(y.peers, c, z.peers[c].conn, None);
    } else if Closes(h, r) {
      OneChanged(y.peers, c, z.peers[c].conn, Some(c));
    } else if h == OnRead && r.Data? {
      OneChanged(y.peers, c, z.peers[c].conn, None);
    } else {
      NoneChanged(y.peers);
    }
  }

  lemma TaskCloses(y: Server, l: LoopId, w: TcpConnections.WriteResult)
    requires Enabled(y, RunTask(l, w)) && Tidy(y, RunTask(l, w))
    requires Sound(y) && AllTight(y.peers)
    ensures ClosesFirst(y.peers, Apply(y, RunTask(l, w)).peers, None)
  {
    hide LoopsSound, QueuesFit, PeersSound, EventLoops.Apply, Execute, Taken, CanExecute, Tight, LeavesNothing;
    InBatch(y, l);
    TakenIsLoops(y, l);
    var x, task := Taken(y, l), y.loops[l].batch[0];
    PeerFacts(y, task.c);
    ExecuteCloses(x, l, task, w);
  }

  lemma ExecuteCloses(y: Server, l: LoopId, task: Task, w: TcpConnections.WriteResult)
    requires CanExecute(y, task, w) && TaskFits(y, l, task) && AllTight(y.peers)
    requires var conn := y.peers[task.c].conn;
             && (conn.state == TcpConnections.Disconnected ==> conn.closed)
             && (conn.state == TcpConnections.Connecting ==> conn.events == {} && !conn.closed && !conn.registered)
    requires task.SendTask? ==>
               LeavesNothing(y.peers[task.c].conn, task.message, w)
    ensures ClosesFirst(y.peers, Execute(y, task, w).peers, None)
  {
    var conn := y.peers[task.c].conn;
    var z := Execute(y, task, w);
    OthersTight(conn, Buffers.ReadError);
    if task.SendTask? {
      SendTight(conn, task.message, w);
    }
    hide Tight, EventLoops.Apply, EventLoops.Enabled, TcpConnections.SendInLoop, LeavesNothing;
    if task.RemoveInLoop? || (task.Establish? && conn.state != TcpConnections.Connecting) {
      NoneChanged(y.peers);
    } else {
      assert z.peers[task.c].conn.closed == conn.closed;
      assert Tight(z.peers[task.c].conn) by {
        ShutdownTight(conn);
      }
      OneChanged(y.peers, task.c, z.peers[task.c].conn, None);
    }
  }

  lemma ShutdownTight(c: TcpConnections.Conn)
    requires Tight(c)
    ensures Tight(TcpConnections.ShutdownInLoop(c)) && Tight(TcpConnections.Shutdown(c))
    ensures TcpConnections.Shutdown(c).closed == c.closed
  {
  }

  /** Every step but those of callbacks and tasks. */
  lemma OtherCloses(y: Server, s: Step)
    requires Enabled(y, s) && Tidy(y, s) && !s.RunHandler? && !s.RunTask?
    requires Sound(y) && AllTight(y.peers)
    ensures ClosesFirst(y.peers, Apply(y, s).peers, None)
  {
    hide LoopsSound, QueuesFit, PeersSound, EventLoops.Apply, EventLoops.Enabled;
    match s {
      case Accept(home, config) =>
        FreshId(y, y.nextConnId);
        AcceptedCloses(y, home, config);
      case LoopSend(c, message, w) =>
        PeerFacts(y, c);
        SentCloses(y, c, message, w);
      case LoopShutdown(c) =>
        ShutdownTight(y.peers[c].conn);
        hide Tight, TcpConnections.Shutdown;
        OneChanged(y.peers, c, TcpConnections.Shutdown(y.peers[c].conn), None);
      case Consume(c, n) =>
        OneChanged(y.peers, c, Apply(y, s).peers[c].conn, None);
      case ForeignSetState(t) =>
        var c := y.stage[t].c;
        PeerFacts(y, c);
        OthersTight(y.peers[c].conn, Buffers.ReadError);
        hide Tight;
        OneChanged(y.peers, c, Apply(y, s).peers[c].conn, None);
      case _ =>
        hide Tight;
        NoneChanged(y.peers);
    }
  }

  lemma AcceptedCloses(y: Server, home: LoopId, config: TcpConnections.Config)
    requires CanAccept(y, home) && y.nextConnId !in y.peers && AllTight(y.peers)
    ensures ClosesFirst(y.peers, NewConnection(y, home, config).peers, None)
  {
    var newborn := TcpConnections.NewConn(config);
    OthersTight(newborn, Buffers.ReadError);
    assert Tight(newborn);
    hide Tight, EventLoops.Apply, EventLoops.Enabled;
  }

  lemma SentCloses(y: Server, c: ConnId, message: string, w: TcpConnections.WriteResult)
    requires c in y.peers && AllTight(y.peers) && TcpConnections.CanAnswer(w, message)
    requires y.peers[c].conn.state == TcpConnections.Connected ==> LeavesNothing(y.peers[c].conn, message, w)
    ensures ClosesFirst(y.peers, Update(y, c, TcpConnections.Send(y.peers[c].conn, message, w)).peers, None)
  {
    var conn := y.peers[c].conn;
    if conn.state == TcpConnections.Connected {
      SendTight(conn, message, w);
    }
    hide Tight, TcpConnections.SendInLoop;
    OneChanged(y.peers, c, TcpConnections.Send(conn, message, w), None);
  }

  lemma StepCloses(y: Server, s: Step)
    requires Enabled(y, s) && Tidy(y, s)
    requires Sound(y) && AllTight(y.peers) && DispatchTight(y)
    ensures ClosesFirst(y.peers, Apply(y, s).peers, ClosedBy(y, s))
  {
    hide Sound, Apply, ClosesFirst, AllTight, DispatchTight, CanRunHandler, CanExecute, HasTask, CanAccept;
    match s {
      case RunHandler(l, r, w) => HandlerCloses(y, l, r, w);
      case RunTask(l, w) => TaskCloses(y, l, w);
      case _ => OtherCloses(y, s);
    }
  }

  // ---- the callbacks still to run ----

  lemma {:induction false} OnlyReported(ready: seq<Ready>)
    ensures forall e :: e in AllHandlers(ready) ==> exists i :: 0 <= i < |ready| && ready[i].c == e.0
    decreases |ready|
  {
    if ready != [] {
      OnlyReported(ready[1..]);
      forall e | e in AllHandlers(ready) ensures exists i :: 0 <= i < |ready| && ready[i].c == e.0 {
        if e in Handlers(ready[0]) {
          assert ready[0].c == e.0;
        } else {
          var i :| 0 <= i < |ready[1..]| && ready[1..][i].c == e.0;
          assert ready[i + 1].c == e.0;
        }
      }
    }
  }

  lemma PollTight(y: Server, l: LoopId, ready: seq<Ready>)
    requires Enabled(y, PollReturns(l, ready)) && OneCloser(AllHandlers(ready))
    requires AllTight(y.peers) && DispatchTight(y)
    ensures DispatchTight(Apply(y, PollReturns(l, ready)))
  {
    OnlyReported(ready);
    hide EventLoops.Apply, EventLoops.Enabled, OneCloser, AllHandlers;
    forall e | e in AllHandlers(ready) ensures e.0 in y.peers && !y.peers[e.0].conn.closed {
      var i :| 0 <= i < |ready| && ready[i].c == e.0;
      assert Reported(y, l, ready[i]);
    }
  }

  /** The callbacks that are left when one has run. */
  lemma HandlerTight(y: Server, l: LoopId, r: Buffers.ReadResult, w: TcpConnections.WriteResult)
    requires Enabled(y, RunHandler(l, r, w))
    requires Sound(y) && DispatchTight(y)
    requires ClosesFirst(y.peers, Apply(y, RunHandler(l, r, w)).peers, ClosedBy(y, RunHandler(l, r, w)))
    ensures DispatchTight(Apply(y, RunHandler(l, r, w)))
  {
    hide Sound, Apply, AllTight, OneCloser, CanClose, ClosedBy, MayClose, CanRunHandler, ClosesFirst;
    HandledDispatch(y, l, r, w);
    HandlersAtHome(y);
    ClosedByHead(y, l, r, w);
    var s := RunHandler(l, r, w);
    var z := Apply(y, s);
    assert y.dispatch[l][0] in y.dispatch[l];
    forall k | k in z.dispatch
      ensures OneCloser(z.dispatch[k]) && CanClose(z.dispatch[k], z.peers)
    {
      if k == l {
        TailCanClose(y.dispatch[l], y.peers, z.peers, ClosedBy(y, s));
      } else {
        OthersCanClose(y.dispatch[k], y.peers, z.peers, k, l, ClosedBy(y, s));
      }
    }
  }

  lemma ClosedByHead(y: Server, l: LoopId, r: Buffers.ReadResult, w: TcpConnections.WriteResult)
    requires Enabled(y, RunHandler(l, r, w))
    ensures var closed := ClosedBy(y, RunHandler(l, r, w));
            closed.Some? ==> closed.value == y.dispatch[l][0].0 && MayClose(y.dispatch[l][0].1)
    ensures l in y.dispatch && y.dispatch[l] != []
  {
    hide CanRemove;
  }

  lemma TailCanClose(es: seq<(ConnId, Handler)>, before: map<ConnId, Peer>, after: map<ConnId, Peer>,
                     closed: Option<ConnId>)
    requires es != [] && OneCloser(es) && CanClose(es, before) && ClosesFirst(before, after, closed)
    requires closed.Some? ==> closed.value == es[0].0 && MayClose(es[0].1)
    ensures OneCloser(es[1..]) && CanClose(es[1..], after)
  {
    hide AllTight;
    forall e | e in es[1..] && MayClose(e.1) ensures e.0 in after && !after[e.0].conn.closed {
      var i :| 1 <= i < |es| && es[i] == e;
      assert e in es;
    }
  }

  lemma OthersCanClose(es: seq<(ConnId, Handler)>, before: map<ConnId, Peer>, after: map<ConnId, Peer>, k: LoopId,
                       l: LoopId, closed: Option<ConnId>)
    requires CanClose(es, before) && ClosesFirst(before, after, closed) && k != l
    requires forall e :: e in es ==> e.0 in before && before[e.0].home == k
    requires closed.Some? ==> before[closed.value].home == l
    ensures CanClose(es, after)
  {
    hide AllTight;
  }

  lemma HandledDispatch(y: Server, l: LoopId, r: Buffers.ReadResult, w: TcpConnections.WriteResult)
    requires Enabled(y, RunHandler(l, r, w))
    ensures Apply(y, RunHandler(l, r, w)).dispatch == y.dispatch[l := y.dispatch[l][1..]]
  {
    hide EventLoops.Enabled, EventLoops.Apply, TcpConnections.HandleWrite, TcpConnections.HandleClose,
         TcpConnections.HandleRead;
  }

  lemma HandlersAtHome(y: Server)
    requires Sound(y)
    ensures forall l, e :: l in y.dispatch && e in y.dispatch[l] ==> e.0 in y.peers && y.peers[e.0].home == l
  {
    hide TaskFits, PeersSound, StagesFit, EventLoops.Sound;
    forall l, e | l in y.dispatch && e in y.dispatch[l] ensures e.0 in y.peers && y.peers[e.0].home == l {
      assert HandlerFits(y, l, e);
    }
  }

  lemma OtherTight(y: Server, s: Step)
    requires Enabled(y, s) && !s.RunHandler? && !s.PollReturns?
    requires DispatchTight(y) && ClosesFirst(y.peers, Apply(y, s).peers, None)
    ensures DispatchTight(Apply(y, s))
  {
    hide Apply, Enabled, OneCloser, AllTight, MayClose;
    SameDispatch(y, s);
  }

  lemma SameDispatch(y: Server, s: Step)
    requires Enabled(y, s) && !s.RunHandler? && !s.PollReturns?
    ensures Apply(y, s).dispatch == y.dispatch
  {
    hide EventLoops.Enabled, EventLoops.Apply, TcpConnections.Send, TcpConnections.SendInLoop, TcpConnections.Shutdown,
         TcpConnections.ConnectDestroyed, TcpConnections.ShutdownInLoop, TcpConnections.ConnectEstablished;
  }

  lemma StepDispatchTight(y: Server, s: Step)
    requires Enabled(y, s) && Tidy(y, s)
    requires Sound(y) && AllTight(y.peers) && DispatchTight(y)
    requires ClosesFirst(y.peers, Apply(y, s).peers, ClosedBy(y, s))
    ensures DispatchTight(Apply(y, s))
  {
    hide Sound, Apply, ClosesFirst, AllTight, DispatchTight, CanRunHandler, CanExecute, HasTask, CanAccept;
    match s {
      case RunHandler(l, r, w) => HandlerTight(y, l, r, w);
      case PollReturns(l, ready) => PollTight(y, l, ready);
      case _ => OtherTight(y, s);
    }
  }

  lemma ClosingsStayExact(a: Account, b: Account, closed: Option<ConnId>)
    requires ClosingsExact(a) && ClosesFirst(a.server.peers, b.server.peers, closed)
    requires b.closings == a.closings + Count(closed)
    ensures ClosingsExact(b)
  {
    hide AllTight;
    if closed.None? {
      assert b.closings == a.closings;
    } else {
      CountedOnce(a.closings, b.closings, closed.value);
    }
  }

  lemma StepKeepsOrderly(a: Account, s: Step)
    requires Enabled(a.server, s) && Tidy(a.server, s)
    requires Sound(a.server) && Orderly(a)
    ensures Orderly(Next(a, s))
  {
    hide Sound, Apply, Enabled, Tidy, DispatchTight, ClosingsExact, Tight;
    StepCloses(a.server, s);
    StepDispatchTight(a.server, s);
    ClosingsStayExact(a, Next(a, s), ClosedBy(a.server, s));
  }

  lemma {:induction false} PlayKeepsOrderly(a: Account, steps: seq<Step>)
    requires Orderly(a) && Sound(a.server) && PlayAccount(a, steps).Some? && TidyRun(a.server, steps)
    ensures Orderly(PlayAccount(a, steps).value)
    decreases |steps|
  {
    hide Orderly, Sound, Apply, Enabled, Tidy;
    if steps != [] {
      StepKeepsOrderly(a, steps[0]);
      StepKeepsSound(a.server, steps[0]);
      PlayKeepsOrderly(Next(a, steps[0]), steps[1..]);
    }
  }

  /** EACH CONNECTION IS CLOSED ONCE. Over every interleaving in which no report gives a connection two
      callbacks that can close and no message is left waiting on a closed connection, `handleClose` has
      run once for each connection that is closed and never for another, and the assertion in
      `removeConnectionInLoop` has never failed. */
  lemma ClosedOnce(ids: set<LoopId>, steps: seq<Step>)
    requires PlayAccount(NewAccount(ids), steps).Some? && TidyRun(NewServer(ids), steps)
    ensures var a := PlayAccount(NewAccount(ids), steps).value;
            && (forall c :: c in a.server.peers ==> a.closings[c] == if a.server.peers[c].conn.closed then 1 else 0)
            && (forall c :: c in a.closings ==> c in a.server.peers)
            && !a.missed
  {
    NewIsOrderly(ids);
    hide Sound, NewServer, PlayAccount, Waiting, TidyRun, Tight, DispatchTight;
    NewServerIsSound(ids);
    PlayKeepsOrderly(NewAccount(ids), steps);
    RemovalCount(ids, steps);
    var a := PlayAccount(NewAccount(ids), steps).value;
    assert forall c :: a.closings[c] <= 1;
  }

  lemma NewIsOrderly(ids: set<LoopId>)
    ensures Orderly(NewAccount(ids))
  {
  }
}
