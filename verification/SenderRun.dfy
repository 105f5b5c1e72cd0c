/** Runs of several threads that show what the theorems on their order have to exclude. */
module SenderRuns {
  import opened Text
  import opened TcpConnections
  import opened SenderOrders
  import opened SenderPrefixes
  import opened SenderHalfCloses
  import EventLoops

  const SENDER: Thread := EventLoops.Other(1)

  lemma {:induction false} PlaySnoc(y: System, steps: seq<SenderOrders.Step>, s: SenderOrders.Step)
    requires Play(y, steps).Some? && SenderOrders.Enabled(Play(y, steps).value, s)
    ensures Play(y, steps + [s]) == Some(SenderOrders.Apply(Play(y, steps).value, s))
    decreases |steps|
  {
    hide SenderOrders.Enabled, SenderOrders.Apply;
    if steps == [] {
      assert steps + [s] == [s];
    } else {
      assert (steps + [s])[1..] == steps[1..] + [s];
      PlaySnoc(SenderOrders.Apply(y, steps[0]), steps[1..], s);
    }
  }

  ghost predicate Reached(config: Config, steps: seq<SenderOrders.Step>, y: System) {
    Play(NewSystem(config), steps) == Some(y)
  }

  lemma Move(config: Config, steps: seq<SenderOrders.Step>, y: System, s: SenderOrders.Step)
    returns (steps': seq<SenderOrders.Step>, z: System)
    requires Reached(config, steps, y) && SenderOrders.Enabled(y, s)
    ensures Reached(config, steps', z) && z == SenderOrders.Apply(y, s)
  {
    hide SenderOrders.Enabled, SenderOrders.Apply;
    PlaySnoc(NewSystem(config), steps, s);
    steps', z := steps + [s], SenderOrders.Apply(y, s);
  }

  /** The loop is in this phase with these tasks, and nobody is on the way to wake it. */
  ghost predicate At(y: System, phase: EventLoops.Phase, batch: seq<Task>, pending: seq<Task>) {
    var l := y.loop;
    l.phase == phase && l.batch == batch && l.pending == pending && l.waking == {}
  }

  lemma Established(config: Config) returns (steps: seq<SenderOrders.Step>, y: System)
    ensures Reached(config, steps, y) && At(y, EventLoops.Idle, [], [])
    ensures y.conn == ConnectEstablished(NewConn(config))
    ensures y.stage == map[] && y.sent == y.taken == [] && y.fates == []
  {
    steps, y := [], NewSystem(config);
    assert Reached(config, steps, y);
    hide Reached;
    steps, y := Move(config, steps, y, ConnectionStep(EstablishStep));
  }

  /** A whole `send` of the other thread: test, push, wakeup. */
  lemma Sends(config: Config, steps: seq<SenderOrders.Step>, y: System, pending: seq<Task>, message: string)
    returns (steps': seq<SenderOrders.Step>, z: System)
    requires Reached(config, steps, y) && At(y, EventLoops.Idle, [], pending)
    requires y.conn.state == Connected && y.stage == map[]
    ensures Reached(config, steps', z) && At(z, EventLoops.Idle, [], pending + [SendTask(1, message)])
    ensures z.conn == y.conn && z.stage == map[] && z.taken == y.taken && z.fates == y.fates
    ensures z.sent == y.sent + [(SENDER, message)]
  {
    hide Reached;
    steps', z := Move(config, steps, y, SendCheck(1, message));
    steps', z := Move(config, steps', z, PushTask(1));
    steps', z := Move(config, steps', z, LoopMove(EventLoops.Wake(SENDER)));
  }

  // ---- a half-close that overtakes a send ----

  /** The thread calls `shutdown`; before its task runs, the loop drains the byte that waits. */
  lemma ShutdownRaces(config: Config, steps: seq<SenderOrders.Step>, y: System, pending: seq<Task>)
    returns (steps': seq<SenderOrders.Step>, z: System)
    requires Reached(config, steps, y) && At(y, EventLoops.Idle, [], pending)
    requires y.conn.output == "a" && y.conn.Writing() && y.conn.state == Connected && y.stage == map[]
    ensures Reached(config, steps', z) && z.conn.halfCloses != [] && z.sent == y.sent && z.loop == y.loop
    ensures z.taken == y.taken && z.fates == y.fates
    ensures |z.conn.halfCloses| == |y.conn.halfCloses| + 1 && !z.conn.Writing()
    ensures z.stage == map[1 := ToPush(ShutdownTask)]
  {
    hide Reached;
    steps', z := Move(config, steps, y, ShutdownCheck(1));
    steps', z := Move(config, steps', z, SetState(1));
    assert z.conn == y.conn.(state := Disconnecting);
    HalfCloseByGuard(z, ConnectionStep(WriteStep(Wrote(1))));
    steps', z := Move(config, steps', z, ConnectionStep(WriteStep(Wrote(1))));
  }

  /** A byte that waits, written by the loop's own thread. */
  lemma ByteWaits(config: Config) returns (steps: seq<SenderOrders.Step>, y: System)
    ensures Reached(config, steps, y) && At(y, EventLoops.Idle, [], [])
    ensures y.conn.output == "a" && y.conn.Writing() && y.conn.state == Connected && y.stage == map[]
    ensures y.sent == y.taken == [(EventLoops.LoopThread, "a")] && |y.fates| == 1 && y.conn.halfCloses == []
  {
    steps, y := Established(config);
    SendInLoopFields(y.conn, "a", Wrote(0));
    SendInLoopKeeps(y.conn, "a", Wrote(0));
    hide SendInLoop, Reached;
    steps, y := Move(config, steps, y, LoopSend("a", Wrote(0)));
  }

  /** A thread sends and then shuts down; the loop drains an earlier message in between. The write side
      is closed while the thread's message is still queued. */
  lemma ForeignShutdownOvertakesSend(config: Config) returns (steps: seq<SenderOrders.Step>)
    ensures Play(NewSystem(config), steps).Some?
    ensures var y := Play(NewSystem(config), steps).value;
            && y.conn.halfCloses != [] && |y.taken| == |y.fates|
            && Of(SENDER, y.sent) == ["b"] && Of(SENDER, Entered(y)) == []
            && Waiting(SENDER, y.loop.pending) == ["b"]
  {
    var y: System;
    hide Reached;
    steps, y := ByteWaits(config);
    steps, y := Sends(config, steps, y, [], "b");
    assert [] + [SendTask(1, "b")] == [SendTask(1, "b")];
    steps, y := ShutdownRaces(config, steps, y, [SendTask(1, "b")]);
    OvertakenMessages(y);
    ReachedMeans(config, steps, y);
  }

  lemma ReachedMeans(config: Config, steps: seq<SenderOrders.Step>, y: System)
    requires Reached(config, steps, y)
    ensures Play(NewSystem(config), steps) == Some(y)
  {
  }

  lemma OvertakenMessages(y: System)
    requires y.sent == [(EventLoops.LoopThread, "a"), (SENDER, "b")]
    requires y.taken == [(EventLoops.LoopThread, "a")] && |y.fates| == 1
    requires y.loop.pending == [SendTask(1, "b")]
    ensures Of(SENDER, y.sent) == ["b"] && Of(SENDER, Entered(y)) == [] && Waiting(SENDER, y.loop.pending) == ["b"]
  {
    var first := (EventLoops.LoopThread, "a");
    assert y.sent == [first] + [(SENDER, "b")] && [first] == [] + [first] && y.fates == [] + y.fates;
    OfSnoc(SENDER, [first], (SENDER, "b"));
    OfSnoc(SENDER, [], first);
    KeptOfSnoc(SENDER, [], [], first, y.fates[0], true);
    WaitingSnoc(SENDER, [], SendTask(1, "b"));
    assert [] + [SendTask(1, "b")] == [SendTask(1, "b")];
    assert y.fates == [] + [y.fates[0]];
  }

  // ---- a second half-close ----

  /** The task of a `shutdown` from another thread is queued and carried out. */
  lemma ShutdownTaskRuns(config: Config, steps: seq<SenderOrders.Step>, y: System)
    returns (steps': seq<SenderOrders.Step>, z: System)
    requires Reached(config, steps, y) && At(y, EventLoops.Idle, [], []) && y.stage == map[1 := ToPush(ShutdownTask)]
    ensures Reached(config, steps', z) && At(z, EventLoops.Batch, [ShutdownTask], []) && z.conn == y.conn
  {
    hide Reached;
    steps', z := Move(config, steps, y, PushTask(1));
    steps', z := Move(config, steps', z, LoopMove(EventLoops.Wake(SENDER)));
    steps', z := Polled(config, steps', z, [ShutdownTask]);
    steps', z := Swapped(config, steps', z, [ShutdownTask]);
  }

  /** One `shutdown` from another thread can shut the write side down twice: the drain does it before the
      task runs. */
  lemma OneShutdownHalfClosesTwice(config: Config) returns (steps: seq<SenderOrders.Step>)
    ensures Play(NewSystem(config), steps).Some?
    ensures |Play(NewSystem(config), steps).value.conn.halfCloses| == 2
  {
    var y: System;
    hide Reached, HalfCloses;
    steps, y := ByteWaits(config);
    steps, y := ShutdownRaces(config, steps, y, []);
    steps, y := ShutdownTaskRuns(config, steps, y);
    SecondHalfClose(y);
    steps, y := Move(config, steps, y, RunTask(Wrote(0)));
    ReachedMeans(config, steps, y);
  }

  lemma SecondHalfClose(y: System)
    requires At(y, EventLoops.Batch, [ShutdownTask], []) && !y.conn.Writing()
    ensures SenderOrders.Enabled(y, RunTask(Wrote(0)))
    ensures |SenderOrders.Apply(y, RunTask(Wrote(0))).conn.halfCloses| == |y.conn.halfCloses| + 1
  {
    HalfCloseByGuard(y, RunTask(Wrote(0)));
  }

  // ---- messages that enter after one was lost ----

  /** Two messages of the thread, the first lost, the second entered. */
  ghost predicate SecondOnly(y: System, who: Thread, a: string, b: string) {
    y.taken == [(who, a), (who, b)] && y.fates == [false, true]
  }

  lemma SecondOnlyIsLate(y: System, who: Thread, a: string, b: string)
    requires SecondOnly(y, who, a, b)
    ensures Of(who, Entered(y)) == [b] && Of(who, y.taken) == [a, b] && !FirstOnesEntered(y, who)
  {
    var first, second := (who, a), (who, b);
    Nothing(who);
    hide Of, Kept;
    assert y.taken == [first] + [second] && [first] == [] + [first];
    assert y.fates == [false] + [true] && [false] == [] + [false];
    OfSnoc(who, [], first);
    OfSnoc(who, [first], second);
    KeptOfSnoc(who, [], [], first, false, true);
    KeptOfSnoc(who, [first], [false], second, true, true);
    assert y.fates[1] && !y.fates[0] && y.taken[0].0 == who == y.taken[1].0;
  }

  lemma Nothing(who: Thread)
    ensures Of(who, []) == [] && Kept([], [], true) == []
  {
  }

  /** A direct write fails for good, and the connection goes on. */
  lemma FaultBreaksOrder(config: Config) returns (steps: seq<SenderOrders.Step>)
    ensures Play(NewSystem(config), steps).Some?
    ensures var y := Play(NewSystem(config), steps).value;
            && |y.taken| == |y.fates| && !FirstOnesEntered(y, EventLoops.LoopThread)
            && Of(EventLoops.LoopThread, Entered(y)) == ["b"] && Of(EventLoops.LoopThread, y.sent) == ["a", "b"]
  {
    var y: System;
    hide Reached;
    steps, y := Established(config);
    steps, y := Move(config, steps, y, LoopSend("a", Failed(EPipe)));
    steps, y := Move(config, steps, y, LoopSend("b", Wrote(1)));
    assert y.taken == [(EventLoops.LoopThread, "a"), (EventLoops.LoopThread, "b")] == y.sent;
    SecondOnlyIsLate(y, EventLoops.LoopThread, "a", "b");
    ReachedMeans(config, steps, y);
  }

  /** Two messages wait when the loop closes and destroys the connection; another thread is past the
      test of `shutdown`. */
  lemma DestroyedUnderSends(config: Config) returns (steps: seq<SenderOrders.Step>, y: System)
    ensures Reached(config, steps, y) && At(y, EventLoops.Batch, [SendTask(1, "a"), SendTask(1, "b")], [])
    ensures y.conn.state == Disconnected && y.conn.Direct() && y.conn.faults == 0
    ensures y.stage == map[2 := ToSetState] && y.taken == [] && y.fates == []
    ensures y.sent == [(SENDER, "a"), (SENDER, "b")]
  {
    hide Reached, At;
    var tasks := [SendTask(1, "a"), SendTask(1, "b")];
    steps, y := Established(config);
    steps, y := Sends(config, steps, y, [], "a");
    assert [] + [SendTask(1, "a")] == [SendTask(1, "a")];
    steps, y := Sends(config, steps, y, [SendTask(1, "a")], "b");
    assert [SendTask(1, "a")] + [SendTask(1, "b")] == tasks;
    steps, y := Destroyed(config, steps, y, tasks);
  }

  lemma Destroyed(config: Config, steps: seq<SenderOrders.Step>, y: System, tasks: seq<Task>)
    returns (steps': seq<SenderOrders.Step>, z: System)
    requires Reached(config, steps, y) && At(y, EventLoops.Idle, [], tasks)
    requires y.conn == ConnectEstablished(NewConn(config)) && y.stage == map[]
    ensures Reached(config, steps', z) && At(z, EventLoops.Batch, tasks, [])
    ensures z.conn.state == Disconnected && z.conn.Direct() && z.conn.faults == 0
    ensures z.stage == map[2 := ToSetState] && z.taken == y.taken && z.fates == y.fates && z.sent == y.sent
  {
    hide Reached;
    steps', z := Closed(config, steps, y, tasks);
    steps', z := Swapped(config, steps', z, tasks);
    steps', z := Move(config, steps', z, ConnectionStep(DestroyStep));
  }

  lemma Closed(config: Config, steps: seq<SenderOrders.Step>, y: System, tasks: seq<Task>)
    returns (steps': seq<SenderOrders.Step>, z: System)
    requires Reached(config, steps, y) && At(y, EventLoops.Idle, [], tasks)
    requires y.conn == ConnectEstablished(NewConn(config)) && y.stage == map[]
    ensures Reached(config, steps', z) && At(z, EventLoops.Dispatching, [], tasks)
    ensures z.conn == HandleClose(y.conn)
    ensures z.stage == map[2 := ToSetState] && z.taken == y.taken && z.fates == y.fates && z.sent == y.sent
  {
    hide Reached;
    steps', z := Move(config, steps, y, ShutdownCheck(2));
    steps', z := Polled(config, steps', z, tasks);
    steps', z := Move(config, steps', z, ConnectionStep(CloseStep));
  }

  lemma Polled(config: Config, steps: seq<SenderOrders.Step>, y: System, tasks: seq<Task>)
    returns (steps': seq<SenderOrders.Step>, z: System)
    requires Reached(config, steps, y) && At(y, EventLoops.Idle, [], tasks)
    ensures Reached(config, steps', z) && At(z, EventLoops.Dispatching, [], tasks) && z == y.(loop := z.loop)
  {
    hide Reached;
    steps', z := Move(config, steps, y, LoopMove(EventLoops.Enter));
    steps', z := Move(config, steps', z, LoopMove(EventLoops.PollReturns));
  }

  lemma Swapped(config: Config, steps: seq<SenderOrders.Step>, y: System, tasks: seq<Task>)
    returns (steps': seq<SenderOrders.Step>, z: System)
    requires Reached(config, steps, y) && At(y, EventLoops.Dispatching, [], tasks)
    ensures Reached(config, steps', z) && At(z, EventLoops.Batch, tasks, []) && z == y.(loop := z.loop)
  {
    hide Reached;
    steps', z := Move(config, steps, y, LoopMove(EventLoops.BeginCalling));
    steps', z := Move(config, steps', z, LoopMove(EventLoops.Swap));
  }

  /** A store of `kDisconnecting` over `kDisconnected`: the first message is lost, the second enters, and
      no write ever failed. */
  lemma OverwriteBreaksOrder(config: Config) returns (steps: seq<SenderOrders.Step>)
    ensures Play(NewSystem(config), steps).Some?
    ensures var y := Play(NewSystem(config), steps).value;
            && y.conn.faults == 0 && |y.taken| == |y.fates| && !FirstOnesEntered(y, SENDER)
            && Of(SENDER, Entered(y)) == ["b"] && Of(SENDER, y.sent) == ["a", "b"]
  {
    hide Reached;
    var y: System;
    steps, y := DestroyedUnderSends(config);
    steps, y := Move(config, steps, y, RunTask(Wrote(0)));
    steps, y := Move(config, steps, y, SetState(2));
    steps, y := Move(config, steps, y, RunTask(Wrote(1)));
    assert y.taken == [(SENDER, "a"), (SENDER, "b")] == y.sent;
    SecondOnlyIsLate(y, SENDER, "a", "b");
    ReachedMeans(config, steps, y);
  }
}
