/** `send` and `shutdown` from any thread: one connection, the task queue of its loop, and any number
    of other threads, interleaved step by step. */
module SenderOrders {
  import opened Text
  import opened TcpConnections
  import EventLoops

  type Thread = EventLoops.Thread
  type Sent = (Thread, string)

  /** What the queue holds for this connection. */
  datatype Task = SendTask(sender: nat, message: string) | ShutdownTask | OtherTask(id: nat)

  /** Where another thread is inside `send` or `shutdown`: past the test of `state_`, and for
      `shutdown` before or after it set the state. */
  datatype Stage = ToPush(task: Task) | ToSetState

  /** Histories: `sent` all sends that passed the test, in call order; `taken` those `sendInLoop` was
      called with, and `fates` whether it let each into the stream or dropped it. */
  datatype System = System(
    loop: EventLoops.Loop<Task>,
    conn: Conn,
    stage: map<nat, Stage>,
    sent: seq<Sent>,
    taken: seq<Sent>,
    fates: seq<bool>)

  function NewSystem(config: Config): System {
    System(EventLoops.NewLoop<Task>(), NewConn(config), map[], [], [], [])
  }

  datatype Step =
    | SendCheck(t: nat, message: string)
    | ShutdownCheck(t: nat)
    | SetState(t: nat)
    | PushTask(t: nat)
    | LoopMove(s: EventLoops.Step<Task>)
    | RunTask(w: WriteResult)
    | LoopSend(message: string, w: WriteResult)
    | LoopShutdown
    | ConnectionStep(a: Action)

  /** Moves of the loop that are not spelled out as a step of this system. */
  predicate OwnMove(s: EventLoops.Step<Task>) {
    !s.RunNext? && !(s.Push? && (!s.f.OtherTask? || s.who != EventLoops.LoopThread))
  }

  predicate LoopRuns(l: EventLoops.Loop<Task>) {
    EventLoops.RunsUserCode(l.phase) && EventLoops.LoopThread !in l.waking
  }

  predicate Enabled(y: System, s: Step) {
    match s
    case SendCheck(t, _) => t !in y.stage && EventLoops.Other(t) !in y.loop.waking && y.conn.state == Connected
    case ShutdownCheck(t) => t !in y.stage && EventLoops.Other(t) !in y.loop.waking && y.conn.state == Connected
    case SetState(t) => t in y.stage && y.stage[t] == ToSetState
    case PushTask(t) => t in y.stage && y.stage[t].ToPush? && EventLoops.Other(t) !in y.loop.waking
    case LoopMove(m) => OwnMove(m) && EventLoops.Enabled(y.loop, m)
    case RunTask(w) =>
      && EventLoops.Enabled(y.loop, EventLoops.RunNext)
      && (y.loop.batch[0].SendTask? ==> CanAnswer(w, y.loop.batch[0].message))
    case LoopSend(message, w) => LoopRuns(y.loop) && CanAnswer(w, message) && y.conn.state == Connected
    case LoopShutdown => LoopRuns(y.loop)
    case ConnectionStep(a) =>
      LoopRuns(y.loop) && !a.SendStep? && !a.ShutdownStep? && TcpConnections.Enabled(y.conn, a)
  }

  /** Whether `sendInLoop` takes the message into the stream. */
  predicate Accepts(c: Conn, w: WriteResult) {
    c.state != Disconnected && !(c.Direct() && Fatal(w))
  }

  function Take(y: System, who: Thread, message: string, w: WriteResult): System
    requires CanAnswer(w, message)
  {
    y.(conn := SendInLoop(y.conn, message, w),
       taken := y.taken + [(who, message)],
       fates := y.fates + [Accepts(y.conn, w)])
  }

  function Apply(y: System, s: Step): System
    requires Enabled(y, s)
  {
    match s
    case SendCheck(t, message) =>
      y.(stage := y.stage[t := ToPush(SendTask(t, message))], sent := y.sent + [(EventLoops.Other(t), message)])
    case ShutdownCheck(t) => y.(stage := y.stage[t := ToSetState])
    case SetState(t) =>
      y.(stage := y.stage[t := ToPush(ShutdownTask)], conn := y.conn.(state := Disconnecting))
    case PushTask(t) =>
      y.(stage := y.stage - {t},
         loop := EventLoops.Apply(y.loop, EventLoops.Push(EventLoops.Other(t), y.stage[t].task)))
    case LoopMove(m) => y.(loop := EventLoops.Apply(y.loop, m))
    case RunTask(w) =>
      var z := y.(loop := EventLoops.Apply(y.loop, EventLoops.RunNext));
      (match y.loop.batch[0]
       case SendTask(t, message) => Take(z, EventLoops.Other(t), message, w)
       case ShutdownTask => z.(conn := ShutdownInLoop(z.conn))
       case OtherTask(_) => z)
    case LoopSend(message, w) =>
      Take(y.(sent := y.sent + [(EventLoops.LoopThread, message)]), EventLoops.LoopThread, message, w)
    case LoopShutdown => y.(conn := Shutdown(y.conn))
    case ConnectionStep(a) => y.(conn := TcpConnections.Apply(y.conn, a))
  }

  function Play(y: System, steps: seq<Step>): Option<System>
    decreases |steps|
  {
    if steps == [] then Some(y)
    else if Enabled(y, steps[0]) then Play(Apply(y, steps[0]), steps[1..])
    else None
  }

  // ---- one thread's messages ----

  /** The messages of thread `who`, in order. */
  function Of(who: Thread, ms: seq<Sent>): seq<string> {
    if ms == [] then []
    else
      var n := |ms| - 1;
      Of(who, ms[..n]) + (if ms[n].0 == who then [ms[n].1] else [])
  }

  /** The messages with this fate. */
  function Kept(ms: seq<Sent>, fates: seq<bool>, fate: bool): seq<Sent>
    requires |ms| == |fates|
  {
    if ms == [] then []
    else
      var n := |ms| - 1;
      Kept(ms[..n], fates[..n], fate) + (if fates[n] == fate then [ms[n]] else [])
  }

  function Entered(y: System): seq<Sent>
    requires |y.taken| == |y.fates|
  {
    Kept(y.taken, y.fates, true)
  }

  function Lost(y: System): seq<Sent>
    requires |y.taken| == |y.fates|
  {
    Kept(y.taken, y.fates, false)
  }

  /** The sends of thread `who` waiting in the queue. */
  function Waiting(who: Thread, tasks: seq<Task>): seq<string> {
    if tasks == [] then []
    else
      var n := |tasks| - 1;
      Waiting(who, tasks[..n]) + WaitingIn(who, tasks[n])
  }

  function WaitingIn(who: Thread, task: Task): seq<string> {
    if task.SendTask? && who == EventLoops.Other(task.sender) then [task.message] else []
  }

  /** The send of thread `who` that has passed the test but is not queued yet. */
  function InHand(who: Thread, stage: map<nat, Stage>): seq<string> {
    if who.Other? && who.id in stage && stage[who.id].ToPush? then WaitingIn(who, stage[who.id].task) else []
  }

  lemma OfSnoc(who: Thread, ms: seq<Sent>, m: Sent)
    ensures Of(who, ms + [m]) == Of(who, ms) + (if m.0 == who then [m.1] else [])
  {
    assert (ms + [m])[..|ms|] == ms;
  }

  lemma KeptSnoc(ms: seq<Sent>, fates: seq<bool>, m: Sent, f: bool, fate: bool)
    requires |ms| == |fates|
    ensures Kept(ms + [m], fates + [f], fate) == Kept(ms, fates, fate) + (if f == fate then [m] else [])
  {
    assert (ms + [m])[..|ms|] == ms && (fates + [f])[..|ms|] == fates;
  }

  lemma WaitingSnoc(who: Thread, tasks: seq<Task>, task: Task)
    ensures Waiting(who, tasks + [task]) == Waiting(who, tasks) + WaitingIn(who, task)
  {
    assert (tasks + [task])[..|tasks|] == tasks;
  }

  lemma {:induction false} WaitingHead(who: Thread, task: Task, tasks: seq<Task>)
    ensures Waiting(who, [task] + tasks) == WaitingIn(who, task) + Waiting(who, tasks)
    decreases |tasks|
  {
    hide WaitingIn;
    if tasks == [] {
      WaitingSnoc(who, [], task);
      assert [] + [task] == [task] + tasks;
    } else {
      var before, last := tasks[..|tasks| - 1], tasks[|tasks| - 1];
      WaitingHead(who, task, before);
      WaitingSnoc(who, [task] + before, last);
      assert [task] + tasks == ([task] + before) + [last];
    }
  }

  // ---- what every step keeps ----

  /** What `sendInLoop` took from a thread, then what waits in the running batch and in the pending
      list, then the one in its hand: exactly what it sent, in call order. */
  ghost predicate InCallOrder(y: System, who: Thread) {
    Of(who, y.taken) + Waiting(who, y.loop.batch) + Waiting(who, y.loop.pending) + InHand(who, y.stage)
    == Of(who, y.sent)
  }

  /** The entered messages are the accepted ones, each whole. */
  ghost predicate EnteredWhole(y: System) {
    && |y.fates| == |y.taken| && |Entered(y)| == |y.conn.accepted|
    && (forall i :: 0 <= i < |y.conn.accepted| ==> Entered(y)[i].1 == y.conn.accepted[i])
    && Conserved(y.conn)
  }

  /** What holds of the writing interest and of every half-close, whoever called `shutdown`. */
  ghost predicate Drains(c: Conn) {
    InterestExact(c) && HalfClosesDrained(c)
  }

  ghost predicate Sound(y: System) {
    && EventLoops.Sound(y.loop)
    && (forall who :: InCallOrder(y, who))
    && EnteredWhole(y)
    && Drains(y.conn)
    && (forall t :: t in y.stage && y.stage[t].ToPush? && y.stage[t].task.SendTask? ==> y.stage[t].task.sender == t)
  }

  lemma SendCheckKeepsSound(y: System, t: nat, message: string)
    requires Sound(y) && Enabled(y, SendCheck(t, message))
    ensures Sound(Apply(y, SendCheck(t, message)))
  {
    hide EventLoops.Sound, Waiting, Of, EnteredWhole, Drains;
    var z := Apply(y, SendCheck(t, message));
    SameStream(y, z);
    forall who ensures InCallOrder(z, who) {
      assert InCallOrder(y, who);
      OfSnoc(who, y.sent, (EventLoops.Other(t), message));
    }
  }

  lemma ShutdownTestKeepsSound(y: System, s: Step)
    requires Sound(y) && Enabled(y, s) && (s.ShutdownCheck? || s.SetState?)
    ensures Sound(Apply(y, s))
  {
    hide EventLoops.Sound, Waiting, Of;
    var z := Apply(y, s);
    forall who ensures InCallOrder(z, who) {
      assert InCallOrder(y, who);
    }
  }

  lemma PushKeepsOrder(y: System, t: nat, who: Thread)
    requires InCallOrder(y, who) && Enabled(y, PushTask(t))
    requires y.stage[t].task.SendTask? ==> y.stage[t].task.sender == t
    ensures InCallOrder(Apply(y, PushTask(t)), who)
  {
    hide Of, Waiting;
    WaitingSnoc(who, y.loop.pending, y.stage[t].task);
  }

  lemma PushTaskKeepsSound(y: System, t: nat)
    requires Sound(y) && Enabled(y, PushTask(t))
    ensures Sound(Apply(y, PushTask(t)))
  {
    hide EventLoops.Sound, Waiting, Of;
    var z := Apply(y, PushTask(t));
    EventLoops.StepKeepsSound(y.loop, EventLoops.Push(EventLoops.Other(t), y.stage[t].task));
    forall who ensures InCallOrder(z, who) {
      PushKeepsOrder(y, t, who);
    }
  }

  lemma LoopMoveKeepsOrder(y: System, m: EventLoops.Step<Task>, who: Thread)
    requires EventLoops.Sound(y.loop) && InCallOrder(y, who) && Enabled(y, LoopMove(m))
    ensures InCallOrder(Apply(y, LoopMove(m)), who)
  {
    hide Of, Waiting;
    assert Waiting(who, []) == [] by {
      NothingWaits(who);
    }
    if m.Push? {
      WaitingSnoc(who, y.loop.pending, m.f);
    }
  }

  lemma NothingWaits(who: Thread)
    ensures Waiting(who, []) == []
  {
  }

  lemma LoopMoveKeepsSound(y: System, m: EventLoops.Step<Task>)
    requires Sound(y) && Enabled(y, LoopMove(m))
    ensures Sound(Apply(y, LoopMove(m)))
  {
    var z := Apply(y, LoopMove(m));
    EventLoops.StepKeepsSound(y.loop, m);
    forall who ensures InCallOrder(z, who) {
      LoopMoveKeepsOrder(y, m, who);
    }
  }

  /** `sendInLoop` keeps the account of the stream. */
  lemma TakeKeepsStream(y: System, who: Thread, message: string, w: WriteResult)
    requires EnteredWhole(y) && Drains(y.conn) && CanAnswer(w, message)
    ensures EnteredWhole(Take(y, who, message, w)) && Drains(Take(y, who, message, w).conn)
  {
    hide Conserved, Concat;
    SendInLoopConserves(y.conn, message, w);
    KeptSnoc(y.taken, y.fates, (who, message), Accepts(y.conn, w), true);
    if Accepts(y.conn, w) {
      SendInLoopFields(y.conn, message, w);
      SendInLoopKeeps(y.conn, message, w);
    }
    hide QueueRest, WriteNow, Kept;
  }

  /** What a task adds to the taken messages. */
  function TakenBy(task: Task): seq<Sent> {
    if task.SendTask? then [(EventLoops.Other(task.sender), task.message)] else []
  }

  lemma RunTaskFields(y: System, w: WriteResult)
    requires Enabled(y, RunTask(w))
    ensures var z := Apply(y, RunTask(w));
            && z.taken == y.taken + TakenBy(y.loop.batch[0])
            && z.loop.batch == y.loop.batch[1..] && z.loop.pending == y.loop.pending
            && z.stage == y.stage && z.sent == y.sent
  {
  }

  /** Taking the head of the batch moves its message across, for every thread. */
  lemma TaskMoves(who: Thread, taken: seq<Sent>, task: Task, tasks: seq<Task>)
    ensures Of(who, taken + TakenBy(task)) + Waiting(who, tasks) == Of(who, taken) + Waiting(who, [task] + tasks)
  {
    hide Of, Waiting;
    WaitingHead(who, task, tasks);
    if task.SendTask? {
      OfSnoc(who, taken, TakenBy(task)[0]);
    } else {
      assert taken + TakenBy(task) == taken;
      assert WaitingIn(who, task) == [];
    }
    assert Of(who, taken) + (WaitingIn(who, task) + Waiting(who, tasks))
        == (Of(who, taken) + WaitingIn(who, task)) + Waiting(who, tasks);
  }

  lemma RunTaskKeepsOrder(y: System, w: WriteResult, who: Thread)
    requires InCallOrder(y, who) && Enabled(y, RunTask(w))
    ensures InCallOrder(Apply(y, RunTask(w)), who)
  {
    RunTaskFields(y, w);
    hide Of, Waiting, InHand, Apply, TakenBy;
    var task, tasks := y.loop.batch[0], y.loop.batch[1..];
    assert y.loop.batch == [task] + tasks;
    TaskMoves(who, y.taken, task, tasks);
  }

  lemma RunTaskKeepsSound(y: System, w: WriteResult)
    requires Sound(y) && Enabled(y, RunTask(w))
    ensures Sound(Apply(y, RunTask(w)))
  {
    hide EventLoops.Sound, EnteredWhole, Drains, SendInLoop, InCallOrder;
    var z := Apply(y, RunTask(w));
    EventLoops.StepKeepsSound(y.loop, EventLoops.RunNext);
    forall who ensures InCallOrder(z, who) {
      RunTaskKeepsOrder(y, w, who);
    }
    var u := y.(loop := EventLoops.Apply(y.loop, EventLoops.RunNext));
    SameStream(y, u);
    match y.loop.batch[0] {
      case SendTask(t, message) => TakeKeepsStream(u, EventLoops.Other(t), message, w);
      case ShutdownTask =>
        SameStream(y, z);
        WholeIsConserved(y);
        TaskHalfCloses(y.conn);
      case OtherTask(_) =>
    }
  }

  /** The account does not depend on anything else. */
  lemma SameStream(y: System, z: System)
    requires EnteredWhole(y)
    requires z.taken == y.taken && z.fates == y.fates
    requires z.conn.accepted == y.conn.accepted && z.conn.offered == y.conn.offered && z.conn.faults == y.conn.faults
    requires z.conn.wire + z.conn.output == y.conn.wire + y.conn.output
    ensures EnteredWhole(z)
  {
  }

  lemma WholeIsConserved(y: System)
    requires EnteredWhole(y)
    ensures Conserved(y.conn)
  {
  }

  lemma LoopSendKeepsSound(y: System, message: string, w: WriteResult)
    requires Sound(y) && Enabled(y, LoopSend(message, w))
    ensures Sound(Apply(y, LoopSend(message, w)))
  {
    hide EventLoops.Sound, EnteredWhole, Drains, SendInLoop, Waiting, Of;
    var z := Apply(y, LoopSend(message, w));
    var u := y.(sent := y.sent + [(EventLoops.LoopThread, message)]);
    SameStream(y, u);
    TakeKeepsStream(u, EventLoops.LoopThread, message, w);
    forall who ensures InCallOrder(z, who) {
      assert InCallOrder(y, who);
      OfSnoc(who, y.sent, (EventLoops.LoopThread, message));
      OfSnoc(who, y.taken, (EventLoops.LoopThread, message));
      if who == EventLoops.LoopThread {
        NoTasksOfLoop(y.loop.batch);
        NoTasksOfLoop(y.loop.pending);
      }
    }
  }

  lemma {:induction false} NoTasksOfLoop(tasks: seq<Task>)
    ensures Waiting(EventLoops.LoopThread, tasks) == []
    decreases |tasks|
  {
    if tasks != [] {
      NoTasksOfLoop(tasks[..|tasks| - 1]);
    }
  }

  lemma ConnectionKeepsSound(y: System, s: Step)
    requires Sound(y) && Enabled(y, s) && (s.ConnectionStep? || s.LoopShutdown?)
    ensures Sound(Apply(y, s))
  {
    hide EventLoops.Sound, EnteredWhole, Drains, Waiting, Of;
    var z := Apply(y, s);
    var a := if s.LoopShutdown? then ShutdownStep else s.a;
    StreamUntouched(y.conn, a);
    SameStream(y, z);
    WholeIsConserved(y);
    DrainKept(y.conn, a);
    forall who ensures InCallOrder(z, who) {
      assert InCallOrder(y, who);
    }
  }

  /** Steps of the connection other than sends move bytes from the buffer to the wire, at most. */
  lemma StreamUntouched(c: Conn, a: Action)
    requires TcpConnections.Enabled(c, a) && !a.SendStep?
    ensures var d := TcpConnections.Apply(c, a);
            && d.accepted == c.accepted && d.offered == c.offered && d.faults == c.faults
            && d.wire + d.output == c.wire + c.output
            && (c.state == Disconnected ==> d.state == Disconnected)
  {
    if a.WriteStep? {
      DrainMovesBytes(c, a.w);
      hide HandleWrite;
    }
  }

  lemma DrainMovesBytes(c: Conn, w: WriteResult)
    requires CanAnswer(w, c.output)
    ensures var d := HandleWrite(c, w);
            && d.accepted == c.accepted && d.offered == c.offered && d.faults == c.faults && d.state == c.state
            && d.wire + d.output == c.wire + c.output
  {
    if w.Wrote? {
      assert c.output == c.output[..w.n] + c.output[w.n..];
    }
  }

  /** They half-close only when nothing waits. */
  lemma DrainKept(c: Conn, a: Action)
    requires TcpConnections.Enabled(c, a) && !a.SendStep? && Conserved(c) && Drains(c)
    ensures Drains(TcpConnections.Apply(c, a))
  {
    hide Concat;
    var d := TcpConnections.Apply(c, a);
    StreamUntouched(c, a);
    if d.output == "" {
      HalfCloseComplete(d);
    }
  }

  lemma TaskHalfCloses(c: Conn)
    requires Conserved(c) && Drains(c)
    ensures Drains(ShutdownInLoop(c))
  {
    hide Concat;
    if c.output == "" {
      HalfCloseComplete(c);
    }
  }

  lemma StepKeepsSound(y: System, s: Step)
    requires Sound(y) && Enabled(y, s)
    ensures Sound(Apply(y, s))
  {
    hide Sound, Apply, Enabled;
    match s {
      case PushTask(t) => PushTaskKeepsSound(y, t);
      case LoopMove(m) => LoopMoveKeepsSound(y, m);
      case RunTask(w) => RunTaskKeepsSound(y, w);
      case LoopSend(message, w) => LoopSendKeepsSound(y, message, w);
      case LoopShutdown => ConnectionKeepsSound(y, s);
      case ConnectionStep(a) => ConnectionKeepsSound(y, s);
      case SendCheck(t, message) => SendCheckKeepsSound(y, t, message);
      case _ => ShutdownTestKeepsSound(y, s);
    }
  }

  lemma {:induction false} PlayKeepsSound(y: System, steps: seq<Step>)
    requires Sound(y) && Play(y, steps).Some?
    ensures Sound(Play(y, steps).value)
    decreases |steps|
  {
    hide Sound, Apply, Enabled;
    if steps != [] {
      StepKeepsSound(y, steps[0]);
      PlayKeepsSound(Apply(y, steps[0]), steps[1..]);
    }
  }

  lemma NewIsSound(config: Config)
    ensures Sound(NewSystem(config))
  {
    NewStream(config);
    forall who ensures InCallOrder(NewSystem(config), who) {
      NothingSent(who);
    }
    hide EnteredWhole, Drains, InCallOrder;
  }

  lemma NewStream(config: Config)
    ensures EnteredWhole(NewSystem(config)) && Drains(NewConn(config))
  {
    assert "" + "" == "";
  }

  lemma NothingSent(who: Thread)
    ensures Of(who, []) == [] && Waiting(who, []) == []
  {
  }

  // ---- call order ----

  /** `a` is `b` with some entries left out. */
  ghost predicate Subsequence(a: seq<string>, b: seq<string>) {
    exists at: seq<nat> :: Picks(at, a, b)
  }

  ghost predicate Picks(at: seq<nat>, a: seq<string>, b: seq<string>) {
    && |at| == |a|
    && (forall i :: 0 <= i < |at| ==> at[i] < |b| && a[i] == b[at[i]])
    && (forall i, j :: 0 <= i < j < |at| ==> at[i] < at[j])
  }

  lemma PicksMore(at: seq<nat>, a: seq<string>, b: seq<string>, m: string)
    requires Picks(at, a, b)
    ensures Picks(at, a, b + [m]) && Picks(at + [|b|], a + [m], b + [m])
  {
  }

  /** A thread's entered messages are some of those taken from it, and the lost ones are the others. */
  lemma {:induction false} KeptInOrder(who: Thread, ms: seq<Sent>, fates: seq<bool>) returns (at: seq<nat>)
    requires |ms| == |fates|
    ensures Picks(at, Of(who, Kept(ms, fates, true)), Of(who, ms))
    ensures |Of(who, Kept(ms, fates, true))| + |Of(who, Kept(ms, fates, false))| == |Of(who, ms)|
    decreases |ms|
  {
    if ms == [] {
      at := [];
    } else {
      var n := |ms| - 1;
      assert ms == ms[..n] + [ms[n]] && fates == fates[..n] + [fates[n]];
      at := KeptInOrder(who, ms[..n], fates[..n]);
      at := OneMore(who, ms[..n], fates[..n], at, ms[n], fates[n]);
    }
  }

  lemma OneMore(who: Thread, ms: seq<Sent>, fates: seq<bool>, at: seq<nat>, m: Sent, f: bool) returns (at': seq<nat>)
    requires |ms| == |fates| && Picks(at, Of(who, Kept(ms, fates, true)), Of(who, ms))
    requires |Of(who, Kept(ms, fates, true))| + |Of(who, Kept(ms, fates, false))| == |Of(who, ms)|
    ensures Picks(at', Of(who, Kept(ms + [m], fates + [f], true)), Of(who, ms + [m]))
    ensures |Of(who, Kept(ms + [m], fates + [f], true))| + |Of(who, Kept(ms + [m], fates + [f], false))|
            == |Of(who, ms + [m])|
  {
    hide Of, Kept, Picks;
    KeptOfSnoc(who, ms, fates, m, f, true);
    KeptOfSnoc(who, ms, fates, m, f, false);
    OfSnoc(who, ms, m);
    var a, b := Of(who, Kept(ms, fates, true)), Of(who, ms);
    assert a + [] == a && b + [] == b;
    at' := at;
    if m.0 == who {
      PicksMore(at, Of(who, Kept(ms, fates, true)), Of(who, ms), m.1);
      if f {
        at' := at + [|Of(who, ms)|];
      }
    }
  }

  lemma KeptOfSnoc(who: Thread, ms: seq<Sent>, fates: seq<bool>, m: Sent, f: bool, fate: bool)
    requires |ms| == |fates|
    ensures Of(who, Kept(ms + [m], fates + [f], fate))
            == Of(who, Kept(ms, fates, fate)) + (if m.0 == who && f == fate then [m.1] else [])
  {
    hide Of, Kept;
    KeptSnoc(ms, fates, m, f, fate);
    if f == fate {
      OfSnoc(who, Kept(ms, fates, fate), m);
    } else {
      assert Kept(ms, fates, fate) + [] == Kept(ms, fates, fate);
    }
  }

  lemma PicksFromPrefix(at: seq<nat>, a: seq<string>, b: seq<string>, rest: seq<string>)
    requires Picks(at, a, b)
    ensures Picks(at, a, b + rest)
  {
  }

  /** PER-SENDER ORDER, over every interleaving of any number of threads with the loop, with any faults
      and any racing shutdowns: the stream is the accepted messages, each whole; and the messages of each
      thread that entered it are among those it sent, in call order. */
  lemma PerSenderOrder(config: Config, steps: seq<Step>, who: Thread)
    requires Play(NewSystem(config), steps).Some?
    ensures var y := Play(NewSystem(config), steps).value;
            && y.conn.wire + y.conn.output == Concat(y.conn.accepted)
            && |y.fates| == |y.taken| && |Entered(y)| == |y.conn.accepted|
            && (forall i :: 0 <= i < |y.conn.accepted| ==> Entered(y)[i].1 == y.conn.accepted[i])
            && Subsequence(Of(who, Entered(y)), Of(who, y.sent))
  {
    hide Apply, Enabled, EventLoops.Sound, Of, Kept, Waiting, InHand, Picks;
    NewIsSound(config);
    PlayKeepsSound(NewSystem(config), steps);
    var y := Play(NewSystem(config), steps).value;
    assert InCallOrder(y, who);
    var at := KeptInOrder(who, y.taken, y.fates);
    var rest := Waiting(who, y.loop.batch) + Waiting(who, y.loop.pending) + InHand(who, y.stage);
    assert Of(who, y.taken) + rest == Of(who, y.sent);
    PicksFromPrefix(at, Of(who, Entered(y)), Of(who, y.taken), rest);
  }

  /** A thread none of whose messages was lost. */
  lemma {:induction false} AllKept(who: Thread, ms: seq<Sent>, fates: seq<bool>)
    requires |ms| == |fates| && Of(who, Kept(ms, fates, false)) == []
    ensures Of(who, Kept(ms, fates, true)) == Of(who, ms)
    decreases |ms|
  {
    if ms != [] {
      var n := |ms| - 1;
      var before, flags, m, f := ms[..n], fates[..n], ms[n], fates[n];
      assert ms == before + [m] && fates == flags + [f];
      hide Of, Kept;
      KeptOfSnoc(who, before, flags, m, f, true);
      KeptOfSnoc(who, before, flags, m, f, false);
      OfSnoc(who, before, m);
      AllKept(who, before, flags);
    }
  }

  /** No send of the thread is lost, waits in the queue, or is in its hand. */
  ghost predicate NothingLeft(y: System, who: Thread)
    requires |y.taken| == |y.fates|
  {
    && Of(who, Lost(y)) == [] && Waiting(who, y.loop.batch) == [] && Waiting(who, y.loop.pending) == []
    && InHand(who, y.stage) == []
  }

  lemma EnteredOrLeft(y: System, who: Thread)
    requires |y.taken| == |y.fates| && InCallOrder(y, who)
    ensures Of(who, Entered(y)) == Of(who, y.sent) <==> NothingLeft(y, who)
  {
    hide Of, Kept, Waiting, InHand, Picks;
    var at := KeptInOrder(who, y.taken, y.fates);
    var rest := Waiting(who, y.loop.batch) + Waiting(who, y.loop.pending) + InHand(who, y.stage);
    assert Of(who, y.taken) + rest == Of(who, y.sent);
    if NothingLeft(y, who) {
      AllKept(who, y.taken, y.fates);
    }
  }

  /** Everything a thread sent is in the stream exactly when none of its sends is lost, waiting in the
      queue, or in its hand. */
  lemma AllEnteredWhenNothingWaits(config: Config, steps: seq<Step>, who: Thread)
    requires Play(NewSystem(config), steps).Some?
    ensures var y := Play(NewSystem(config), steps).value;
            && |y.taken| == |y.fates|
            && (Of(who, Entered(y)) == Of(who, y.sent) <==> NothingLeft(y, who))
  {
    hide Sound, Apply, Enabled, Of, Kept, Waiting, NothingLeft;
    NewIsSound(config);
    PlayKeepsSound(NewSystem(config), steps);
    AccountOf(Play(NewSystem(config), steps).value, who);
    EnteredOrLeft(Play(NewSystem(config), steps).value, who);
  }

  lemma AccountOf(y: System, who: Thread)
    requires Sound(y)
    ensures |y.taken| == |y.fates| && InCallOrder(y, who)
  {
    hide EventLoops.Sound, InCallOrder;
  }

  // ---- what a step takes ----

  /** The message `sendInLoop` is called with in this step. */
  function TakenIn(y: System, s: Step): seq<Sent>
    requires Enabled(y, s)
  {
    match s
    case RunTask(_) => TakenBy(y.loop.batch[0])
    case LoopSend(message, _) => [(EventLoops.LoopThread, message)]
    case _ => []
  }

  function ResultIn(s: Step): WriteResult {
    match s
    case RunTask(w) => w
    case LoopSend(_, w) => w
    case _ => Wrote(0)
  }

  lemma StepFates(y: System, s: Step)
    requires Enabled(y, s)
    ensures var z, t := Apply(y, s), TakenIn(y, s);
            && |t| <= 1 && z.taken == y.taken + t
            && z.fates == y.fates + (if t == [] then [] else [Accepts(y.conn, ResultIn(s))])
  {
    hide EventLoops.Enabled, EventLoops.Apply, SendInLoop, Accepts;
  }

  /** The step stores `kDisconnecting` over `kDisconnected`. */
  predicate Overwrites(y: System, s: Step) {
    s.SetState? && y.conn.state == Disconnected
  }

  lemma StaysDisconnected(y: System, s: Step)
    requires Enabled(y, s) && y.conn.state == Disconnected
    ensures Overwrites(y, s) || Apply(y, s).conn.state == Disconnected
  {
    hide EventLoops.Enabled, EventLoops.Apply;
  }
}
