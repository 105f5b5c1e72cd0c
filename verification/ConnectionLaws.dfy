/** What the runs of a connection come to, told without its handlers: from the kernel's answers, and from the
    steps alone. */
module ConnectionLaws {
  import opened Text
  import opened Buffers
  import opened Pollers
  import opened TcpConnections

  // ---- the wire is what the kernel took ----

  /** The call of `write` a step makes: a send when nothing waits, or a drain with writing interest on. */
  function CallIn(c: Conn, a: Action): seq<WriteCall> {
    match a
    case SendStep(message, w) =>
      if c.state == Connected && Out !in c.events && c.output == "" then [(message, w)] else []
    case WriteStep(w) => if Out in c.events then [(c.output, w)] else []
    case _ => []
  }

  /** All calls of `write` along a run, with the kernel's answers. */
  function CallsOf(c: Conn, steps: seq<Action>): seq<WriteCall>
    decreases |steps|
  {
    if steps == [] || !Enabled(c, steps[0]) then []
    else CallIn(c, steps[0]) + CallsOf(Apply(c, steps[0]), steps[1..])
  }

  lemma {:induction false} DeliveredAppend(calls: seq<WriteCall>, more: seq<WriteCall>)
    ensures DeliveredAll(calls + more) == DeliveredAll(calls) + DeliveredAll(more)
    decreases |more|
  {
    hide Delivered;
    if more == [] {
      assert calls + more == calls;
    } else {
      var before, last := more[..|more| - 1], more[|more| - 1];
      DeliveredAppend(calls, before);
      assert more == before + [last] && calls + more == (calls + before) + [last];
      DeliveredSnoc(calls + before, last);
      DeliveredSnoc(before, last);
    }
  }

  lemma DeliveredSnoc(calls: seq<WriteCall>, call: WriteCall)
    ensures DeliveredAll(calls + [call]) == DeliveredAll(calls) + Delivered(call)
  {
    hide Delivered;
    assert (calls + [call])[..|calls|] == calls;
  }

  lemma DeliveredOne(call: WriteCall)
    ensures DeliveredAll([call]) == Delivered(call) && DeliveredAll([]) == ""
  {
    assert [call][..0] == [];
  }

  lemma StepDelivers(c: Conn, a: Action)
    requires Enabled(c, a)
    ensures Apply(c, a).wire == c.wire + DeliveredAll(CallIn(c, a))
  {
    hide DeliveredAll;
    match a {
      case SendStep(message, w) =>
        DeliveredOne((message, w));
        if c.state == Connected && !(c.Direct() && Fatal(w)) {
          SendInLoopFields(c, message, w);
        }
      case WriteStep(w) =>
        DeliveredOne((c.output, w));
      case _ =>
        DeliveredOne(("", Wrote(0)));
    }
  }

  lemma {:induction false} RunDelivers(c: Conn, steps: seq<Action>)
    requires Run(c, steps).Some?
    ensures Run(c, steps).value.wire == c.wire + DeliveredAll(CallsOf(c, steps))
    decreases |steps|
  {
    hide Apply, Enabled, CallIn, DeliveredAll;
    if steps == [] {
      DeliveredOne(("", Wrote(0)));
    } else {
      var d := Apply(c, steps[0]);
      StepDelivers(c, steps[0]);
      RunDelivers(d, steps[1..]);
      DeliveredAppend(CallIn(c, steps[0]), CallsOf(d, steps[1..]));
    }
  }

  /** THE WIRE, over every run: it holds, of each call of `write` in turn, the first bytes offered, as many
      as the kernel took. So what waits is the accepted messages without these. */
  lemma WireIsWhatTheKernelTook(config: Config, steps: seq<Action>)
    requires Run(NewConn(config), steps).Some?
    ensures var c := Run(NewConn(config), steps).value;
            && c.wire == DeliveredAll(CallsOf(NewConn(config), steps))
            && DeliveredAll(CallsOf(NewConn(config), steps)) + c.output == Concat(c.accepted)
  {
    hide Run, CallsOf, DeliveredAll, Concat;
    RunDelivers(NewConn(config), steps);
    EveryRunIsGood(config, steps);
  }

  // ---- drains empty the buffer ----

  function Sum(answers: seq<nat>): nat {
    if answers == [] then 0 else answers[0] + Sum(answers[1..])
  }

  function Drains(answers: seq<nat>): (steps: seq<Action>)
    ensures |steps| == |answers|
  {
    seq(|answers|, i requires 0 <= i < |answers| => WriteStep(Wrote(answers[i])))
  }

  lemma OneDrain(c: Conn, n: nat)
    requires Open(c.state) && c.Writing() && n <= |c.output|
    ensures var d := HandleWrite(c, Wrote(n));
            && Open(d.state) && d.output == c.output[n..] && d.wire == c.wire + c.output[..n]
            && (d.output != "" ==> d.Writing()) && (n == |c.output| > 0 ==> !d.Writing())
  {
  }

  lemma {:induction false} IdleDrains(c: Conn, answers: seq<nat>)
    requires Open(c.state) && c.output == "" && Sum(answers) == 0
    ensures Run(c, Drains(answers)) == Some(c)
    decreases |answers|
  {
    if answers != [] {
      assert Drains(answers)[1..] == Drains(answers[1..]);
      IdleDrains(c, answers[1..]);
    }
  }

  /** Whatever the short writes: when the answers of the drains of an open, writing connection add up to what
      waits, the buffer is empty, everything is on the wire, and the writing interest is off. */
  lemma {:induction false} DrainsEmptyTheBuffer(c: Conn, answers: seq<nat>)
    requires Open(c.state) && c.Writing() && c.output != "" && Sum(answers) == |c.output|
    ensures Run(c, Drains(answers)).Some?
    ensures var d := Run(c, Drains(answers)).value;
            d.output == "" && !d.Writing() && d.wire == c.wire + c.output
    decreases |answers|
  {
    var n, rest := answers[0], answers[1..];
    assert Drains(answers)[1..] == Drains(rest);
    OneDrain(c, n);
    assert c.output == c.output[..n] + c.output[n..];
    assert Enabled(c, WriteStep(Wrote(n)));
    var d := HandleWrite(c, Wrote(n));
    assert Apply(c, Drains(answers)[0]) == d;
    hide HandleWrite;
    if d.output == "" {
      IdleDrains(d, rest);
    } else {
      DrainsEmptyTheBuffer(d, rest);
      assert c.wire + c.output[..n] + c.output[n..] == c.wire + c.output;
    }
  }

  // ---- the ledger: what the steps alone say ----

  /** State, callbacks, messages offered, bytes received and taken out, and whether `handleClose` ran. */
  datatype Ledger = Ledger(
    state: State,
    trace: seq<Callback>,
    offered: seq<string>,
    received: string,
    consumed: nat,
    closed: bool)

  const BLANK: Ledger := Ledger(Connecting, [], [], "", 0, false)

  function Record(l: Ledger, a: Action): Ledger {
    match a
    case EstablishStep => l.(state := Connected, trace := l.trace + [Up])
    case SendStep(message, _) => if l.state == Connected then l.(offered := l.offered + [message]) else l
    case ShutdownStep => if l.state == Connected then l.(state := Disconnecting) else l
    case WriteStep(_) => l
    case ReadStep(ReadError) => l
    case ReadStep(Data(bytes)) =>
      if bytes == "" then l.(closed := true)
      else l.(received := l.received + bytes, trace := l.trace + [Message(bytes)])
    case ConsumeStep(n) => l.(consumed := l.consumed + n)
    case CloseStep => l.(closed := true)
    case DestroyStep => if l.state == Connected then l.(state := Disconnected, trace := l.trace + [Down]) else l
  }

  function Recorded(l: Ledger, steps: seq<Action>): Ledger
    decreases |steps|
  {
    if steps == [] then l else Recorded(Record(l, steps[0]), steps[1..])
  }

  ghost predicate Matches(c: Conn, l: Ledger) {
    && c.state == l.state && c.trace == l.trace && c.offered == l.offered && c.closed == l.closed
    && l.consumed <= |l.received| && c.input == l.received[l.consumed..]
  }

  lemma StepMatches(c: Conn, l: Ledger, a: Action)
    requires Matches(c, l) && Enabled(c, a)
    ensures Matches(Apply(c, a), Record(l, a))
  {
    match a {
      case SendStep(message, w) =>
        SendInLoopKeeps(c, message, w);
        hide SendInLoop;
      case _ =>
    }
  }

  lemma {:induction false} RunMatches(c: Conn, l: Ledger, steps: seq<Action>)
    requires Matches(c, l) && Run(c, steps).Some?
    ensures Matches(Run(c, steps).value, Recorded(l, steps))
    decreases |steps|
  {
    hide Matches, Apply, Enabled, Record;
    if steps != [] {
      StepMatches(c, l, steps[0]);
      RunMatches(Apply(c, steps[0]), Record(l, steps[0]), steps[1..]);
    }
  }

  /** THE LEDGER, over every run: the state, the callbacks with the bytes of each message, the messages
      offered and the unread input are what the steps alone say, whatever the kernel answers to `write`. */
  lemma LedgerIsKept(config: Config, steps: seq<Action>)
    requires Run(NewConn(config), steps).Some?
    ensures Matches(Run(NewConn(config), steps).value, Recorded(BLANK, steps))
  {
    hide Run, Recorded;
    RunMatches(NewConn(config), BLANK, steps);
  }

  // ---- which messages are dropped, and which callbacks are queued ----

  /** A message is taken whole unless the direct write fails with EPIPE or ECONNRESET. */
  lemma DroppedExactly(c: Conn, message: string, w: WriteResult)
    requires c.state != Disconnected && CanAnswer(w, message)
    ensures SendInLoop(c, message, w).accepted
            == if Out !in c.events && c.output == "" && (w == Failed(EPipe) || w == Failed(EConnReset))
               then c.accepted else c.accepted + [message]
  {
    if !(c.Direct() && Fatal(w)) {
      SendInLoopFields(c, message, w);
      hide SendInLoop;
    }
  }

  /** The kernel took all that a step offered: an answer that a drain acts on only when it is positive. */
  predicate TookAll(calls: seq<WriteCall>, drain: bool) {
    calls != [] && calls[0].1 == Wrote(|calls[0].0|) && (drain ==> calls[0].0 != "")
  }

  /** What a step queues: a write-complete callback exactly when the kernel took all that was offered, and a
      high-water one exactly when the bytes waiting reach the mark from below. */
  function QueuedBy(c: Conn, a: Action, waiting: nat): seq<Queued> {
    (if c.config.onWriteComplete && TookAll(CallIn(c, a), a.WriteStep?) then [WriteComplete] else [])
    + (if c.config.onHighWaterMark && |c.output| < c.config.highWaterMark <= waiting then [HighWaterMark(waiting)]
       else [])
  }

  lemma QueuedExactly(c: Conn, a: Action)
    requires Enabled(c, a)
    ensures var d := Apply(c, a); d.queued == c.queued + QueuedBy(c, a, |d.output|)
  {
    match a {
      case SendStep(message, w) => SendQueues(c, message, w);
      case WriteStep(w) => DrainQueues(c, w);
      case _ =>
    }
  }

  lemma SendQueues(c: Conn, message: string, w: WriteResult)
    requires CanAnswer(w, message)
    ensures var d := Send(c, message, w); d.queued == c.queued + QueuedBy(c, SendStep(message, w), |d.output|)
  {
    if c.state == Connected && !(c.Direct() && Fatal(w)) {
      var n := DirectlyWritten(c, w);
      assert n == |message| <==> message[n..] == "";
    }
  }

  lemma DrainQueues(c: Conn, w: WriteResult)
    requires CanAnswer(w, c.output)
    ensures var d := HandleWrite(c, w); d.queued == c.queued + QueuedBy(c, WriteStep(w), |d.output|)
  {
    if !c.Writing() || w.Failed? || w.n == 0 {
      assert QueuedBy(c, WriteStep(w), |c.output|) == [];
    } else {
      var d := HandleWrite(c, w);
      assert |d.output| == |c.output| - w.n;
      assert d.output == "" <==> w.n == |c.output|;
    }
  }
}
