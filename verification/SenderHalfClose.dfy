/** Half-closes when `send` and `shutdown` may be called from any thread. */
module SenderHalfCloses {
  import opened Text
  import opened SenderOrders
  import TcpConnections
  import EventLoops

  /** HALF-CLOSE AFTER DRAIN for callers on any thread, over every interleaving: before `handleClose`
      writing interest is on exactly while bytes wait, and every half-close finds everything accepted on
      the wire. */
  lemma HalfCloseAfterDrain(config: TcpConnections.Config, steps: seq<Step>)
    requires Play(NewSystem(config), steps).Some?
    ensures var y := Play(NewSystem(config), steps).value;
            TcpConnections.InterestExact(y.conn) && TcpConnections.HalfClosesDrained(y.conn)
  {
    hide Apply, Enabled, EventLoops.Sound;
    NewIsSound(config);
    PlayKeepsSound(NewSystem(config), steps);
  }

  // ---- which steps half-close ----

  /** The three places that call `shutdownWrite`, with their tests: a `shutdownInLoop` task, `shutdown` on
      the loop's thread, and a drain of a connection that was shut down. */
  predicate HalfCloses(y: System, s: Step)
    requires Enabled(y, s)
  {
    match s
    case RunTask(_) => y.loop.batch[0].ShutdownTask? && !y.conn.Writing()
    case LoopShutdown => y.conn.state == TcpConnections.Connected && !y.conn.Writing()
    case ConnectionStep(a) =>
      a.WriteStep? && y.conn.Writing() && a.w.Wrote? && 0 < a.w.n == |y.conn.output|
      && y.conn.state == TcpConnections.Disconnecting
    case _ => false
  }

  /** Exactly these half-close, each once, with what is then on the wire. */
  lemma HalfCloseByGuard(y: System, s: Step)
    requires Enabled(y, s)
    ensures var z := Apply(y, s);
            z.conn.halfCloses == if HalfCloses(y, s)
              then y.conn.halfCloses + [TcpConnections.HalfClose(z.conn.wire, z.conn.accepted, z.conn.closed)]
              else y.conn.halfCloses
    ensures HalfCloses(y, s) ==> !Apply(y, s).conn.Writing()
  {
    hide EventLoops.Apply, TcpConnections.WriteNow, TcpConnections.QueueRest;
    if TakenIn(y, s) != [] {
      TcpConnections.SendInLoopKeeps(y.conn, TakenIn(y, s)[0].1, ResultIn(s));
    }
  }

  /** What a half-close sends off. It is complete exactly when nothing waits, and before `handleClose` it
      is; and then a thread's sends are all on the wire if and only if none is lost, queued or in its
      hand. */
  lemma HalfCloseSends(config: TcpConnections.Config, steps: seq<Step>, s: Step, who: Thread)
    requires Play(NewSystem(config), steps).Some? && Enabled(Play(NewSystem(config), steps).value, s)
    requires HalfCloses(Play(NewSystem(config), steps).value, s)
    ensures var z := Apply(Play(NewSystem(config), steps).value, s);
            && |z.taken| == |z.fates|
            && (z.conn.wire == Concat(EventLoops.Payloads(Entered(z))) <==> z.conn.output == "")
            && (!z.conn.closed ==> z.conn.output == "")
            && (Of(who, Entered(z)) == Of(who, z.sent) <==> NothingLeft(z, who))
  {
    hide Sound, Play, Enabled, Of, Kept, Waiting, NothingLeft, InCallOrder;
    NewIsSound(config);
    PlayKeepsSound(NewSystem(config), steps);
    var y := Play(NewSystem(config), steps).value;
    StepKeepsSound(y, s);
    AccountOf(Apply(y, s), who);
    EnteredOrLeft(Apply(y, s), who);
    HalfCloseByGuard(y, s);
    EnteredBytes(Apply(y, s));
  }

  lemma EnteredBytes(y: System)
    requires Sound(y) && !y.conn.Writing()
    ensures |y.taken| == |y.fates|
    ensures y.conn.wire == Concat(EventLoops.Payloads(Entered(y))) <==> y.conn.output == ""
    ensures !y.conn.closed ==> y.conn.output == ""
  {
    hide EventLoops.Sound, InCallOrder, Concat, Kept;
    assert EventLoops.Payloads(Entered(y)) == y.conn.accepted;
    assert |y.conn.wire + y.conn.output| == |y.conn.wire| + |y.conn.output|;
    assert y.conn.output == "" ==> y.conn.wire + y.conn.output == y.conn.wire;
  }

  // ---- how often ----

  function HalfCloseSteps(y: System, steps: seq<Step>): nat
    decreases |steps|
  {
    if steps == [] || !Enabled(y, steps[0]) then 0
    else (if HalfCloses(y, steps[0]) then 1 else 0) + HalfCloseSteps(Apply(y, steps[0]), steps[1..])
  }

  lemma {:induction false} CountedHalfCloses(y: System, steps: seq<Step>)
    requires Play(y, steps).Some?
    ensures |Play(y, steps).value.conn.halfCloses| == |y.conn.halfCloses| + HalfCloseSteps(y, steps)
    decreases |steps|
  {
    hide Apply, Enabled, HalfCloses;
    if steps != [] {
      HalfCloseByGuard(y, steps[0]);
      CountedHalfCloses(Apply(y, steps[0]), steps[1..]);
    }
  }

  /** The write side is shut down exactly as often as one of the three tests passes. */
  lemma HalfCloseCount(config: TcpConnections.Config, steps: seq<Step>)
    requires Play(NewSystem(config), steps).Some?
    ensures |Play(NewSystem(config), steps).value.conn.halfCloses| == HalfCloseSteps(NewSystem(config), steps)
  {
    hide Play, HalfCloseSteps;
    CountedHalfCloses(NewSystem(config), steps);
  }

  /** No other thread calls `shutdown`, and after a half-close no message is taken that leaves bytes. */
  predicate Calm(y: System, s: Step)
    requires Enabled(y, s)
  {
    && !s.ShutdownCheck?
    && (y.conn.halfCloses != [] && TakenIn(y, s) != [] && Accepts(y.conn, ResultIn(s)) ==>
          TcpConnections.DirectlyWritten(y.conn, ResultIn(s)) == |TakenIn(y, s)[0].1|)
  }

  predicate CalmRun(y: System, steps: seq<Step>)
    decreases |steps|
  {
    steps != [] && Enabled(y, steps[0]) ==> Calm(y, steps[0]) && CalmRun(Apply(y, steps[0]), steps[1..])
  }

  /** No `shutdownInLoop` task is queued or on its way, and after the half-close nothing is written. */
  ghost predicate OneAtMost(y: System) {
    && (forall task :: task in y.loop.batch || task in y.loop.pending ==> !task.ShutdownTask?)
    && (forall t :: t in y.stage ==> y.stage[t].ToPush? && !y.stage[t].task.ShutdownTask?)
    && |y.conn.halfCloses| <= 1
    && (y.conn.halfCloses != [] ==>
          !y.conn.Writing()
          && (y.conn.state == TcpConnections.Disconnecting || y.conn.state == TcpConnections.Disconnected))
  }

  lemma CalmQueue(y: System, s: Step)
    requires Enabled(y, s) && Calm(y, s) && OneAtMost(y)
    ensures var z := Apply(y, s);
            && (forall task :: task in z.loop.batch || task in z.loop.pending ==> !task.ShutdownTask?)
            && (forall t :: t in z.stage ==> z.stage[t].ToPush? && !z.stage[t].task.ShutdownTask?)
  {
    hide TcpConnections.SendInLoop, TcpConnections.Apply, TcpConnections.Enabled, Accepts,
         TcpConnections.ShutdownInLoop, TcpConnections.Shutdown;
  }

  lemma CalmConnection(y: System, s: Step)
    requires Enabled(y, s) && Calm(y, s) && OneAtMost(y)
    ensures var c := Apply(y, s).conn;
            && |c.halfCloses| <= 1
            && (c.halfCloses != [] ==>
                  !c.Writing() && (c.state == TcpConnections.Disconnecting || c.state == TcpConnections.Disconnected))
  {
    HalfCloseByGuard(y, s);
    hide EventLoops.Apply;
    if TakenIn(y, s) != [] && Accepts(y.conn, ResultIn(s)) {
      TcpConnections.SendInLoopFields(y.conn, TakenIn(y, s)[0].1, ResultIn(s));
    }
  }

  lemma {:induction false} CalmKeepsOne(y: System, steps: seq<Step>)
    requires OneAtMost(y) && CalmRun(y, steps) && Play(y, steps).Some?
    ensures OneAtMost(Play(y, steps).value)
    decreases |steps|
  {
    hide Apply, Enabled, Calm;
    if steps != [] {
      CalmQueue(y, steps[0]);
      CalmConnection(y, steps[0]);
      CalmKeepsOne(Apply(y, steps[0]), steps[1..]);
    }
  }

  /** At most once, when only the loop's own thread calls `shutdown` and no message taken after the
      half-close leaves bytes to wait. */
  lemma HalfClosesOnce(config: TcpConnections.Config, steps: seq<Step>)
    requires Play(NewSystem(config), steps).Some? && CalmRun(NewSystem(config), steps)
    ensures |Play(NewSystem(config), steps).value.conn.halfCloses| <= 1
  {
    hide Play, CalmRun;
    CalmKeepsOne(NewSystem(config), steps);
  }
}
