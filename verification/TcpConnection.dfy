/** One TCP connection: the output path, shutdown, and the callbacks. The functions on `Conn` are what
    each handler does; the run theorems are about them; the class does it in place. */
module TcpConnections {
  import opened Text
  import opened Buffers
  import opened Pollers

  datatype State = Connecting | Connected | Disconnecting | Disconnected

  datatype Errno = EWouldBlock | EPipe | EConnReset | OtherErrno

  /** What `write` gives back: a number of bytes, at most as many as were offered, or an error. */
  datatype WriteResult = Wrote(n: nat) | Failed(errno: Errno)

  predicate CanAnswer(w: WriteResult, offered: string) {
    w.Wrote? ==> w.n <= |offered|
  }

  /** What the user sees, in order. */
  datatype Callback = Up | Message(bytes: string) | Down

  /** Callbacks handed to the loop's queue. */
  datatype Queued = WriteComplete | HighWaterMark(size: nat)

  datatype Config = Config(highWaterMark: nat, onWriteComplete: bool, onHighWaterMark: bool)

  /** A call of `shutdownWrite`: what was on the wire and what had been accepted at that moment, and
      whether `handleClose` had run before. */
  datatype HalfClose = HalfClose(wire: string, accepted: seq<string>, afterClose: bool)

  /** The connection. `registered` says whether the kernel polls the descriptor; `offered`, `accepted`,
      `faults`, `wire`, `halfCloses`, `trace`, `queued` and `closed` are histories. */
  datatype Conn = Conn(
    config: Config,
    state: State,
    events: set<Event>,
    registered: bool,
    input: string,
    output: string,
    offered: seq<string>,
    accepted: seq<string>,
    faults: nat,
    wire: string,
    halfCloses: seq<HalfClose>,
    trace: seq<Callback>,
    queued: seq<Queued>,
    closed: bool)
  {
    predicate Writing() {
      Out in events
    }

    /** Nothing is waiting, so `sendInLoop` calls `write` itself. */
    predicate Direct() {
      !Writing() && output == ""
    }
  }

  function NewConn(config: Config): Conn {
    Conn(config, Connecting, {}, false, "", "", [], [], 0, "", [], [], [], false)
  }

  // ---- what each handler does ----

  /** A change of the event mask, and what it does to the registration. */
  function SetMask(c: Conn, mask: set<Event>): Conn {
    c.(events := mask, registered := !(c.registered && mask == {}))
  }

  predicate Fatal(w: WriteResult) {
    w.Failed? && (w.errno == EPipe || w.errno == EConnReset)
  }

  /** The bytes `sendInLoop` writes itself: it calls `write` only when nothing is waiting. */
  function DirectlyWritten(c: Conn, w: WriteResult): nat {
    if c.Direct() && w.Wrote? then w.n else 0
  }

  /** The message enters the stream; its first `n` bytes go to the wire at once. */
  function WriteNow(c: Conn, message: string, n: nat, w: WriteResult): Conn
    requires n <= |message|
  {
    c.(offered := c.offered + [message],
       accepted := c.accepted + [message],
       wire := c.wire + message[..n],
       queued := if c.Direct() && w.Wrote? && n == |message| && c.config.onWriteComplete
                 then c.queued + [WriteComplete] else c.queued)
  }

  /** What is left of the message waits in the output buffer, with writing interest on. */
  function QueueRest(c: Conn, rest: string): Conn {
    if rest == "" then c
    else
      var size := |c.output| + |rest|;
      var c1 := c.(output := c.output + rest,
                   queued := if c.config.onHighWaterMark && |c.output| < c.config.highWaterMark <= size
                             then c.queued + [HighWaterMark(size)] else c.queued);
      if c.Writing() then c1 else SetMask(c1, c1.events + {Out})
  }

  /** `w` is the result of the direct write, if there is one. After a fatal error of the direct write
      the message is dropped whole. */
  function SendInLoop(c: Conn, message: string, w: WriteResult): Conn
    requires CanAnswer(w, message)
  {
    if c.state == Disconnected then c
    else if c.Direct() && Fatal(w) then c.(offered := c.offered + [message], faults := c.faults + 1)
    else
      var n := DirectlyWritten(c, w);
      QueueRest(WriteNow(c, message, n, w), message[n..])
  }

  function ShutdownInLoop(c: Conn): Conn {
    if c.Writing() then c else c.(halfCloses := c.halfCloses + [HalfClose(c.wire, c.accepted, c.closed)])
  }

  /** The output buffer ran empty: no more writing interest, and the half-close that waited for it. */
  function Drained(c: Conn): Conn {
    var c1 := SetMask(c, c.events - {Out});
    var c2 := if c.config.onWriteComplete then c1.(queued := c.queued + [WriteComplete]) else c1;
    if c.state == Disconnecting then ShutdownInLoop(c2) else c2
  }

  function HandleWrite(c: Conn, w: WriteResult): Conn
    requires CanAnswer(w, c.output)
  {
    if !c.Writing() || w.Failed? || w.n == 0 then c
    else
      var c1 := c.(wire := c.wire + c.output[..w.n], output := c.output[w.n..]);
      if c1.output != "" then c1 else Drained(c1)
  }

  /** `send` on the loop's own thread. */
  function Send(c: Conn, message: string, w: WriteResult): Conn
    requires CanAnswer(w, message)
  {
    if c.state == Connected then SendInLoop(c, message, w) else c
  }

  /** `shutdown` on the loop's own thread. */
  function Shutdown(c: Conn): Conn {
    if c.state == Connected then ShutdownInLoop(c.(state := Disconnecting)) else c
  }

  function ConnectEstablished(c: Conn): Conn
    requires c.state == Connecting
  {
    SetMask(c, c.events + READ_EVENTS).(state := Connected, trace := c.trace + [Up])
  }

  function ConnectDestroyed(c: Conn): Conn {
    var c1 := if c.state == Connected
              then SetMask(c, {}).(state := Disconnected, trace := c.trace + [Down]) else c;
    c1.(registered := false)
  }

  predicate Open(s: State) {
    s == Connected || s == Disconnecting
  }

  function HandleClose(c: Conn): Conn
    requires Open(c.state)
  {
    SetMask(c, {}).(closed := true)
  }

  function HandleRead(c: Conn, r: ReadResult): Conn
    requires Open(c.state)
  {
    if r.ReadError? then c
    else if r.bytes == "" then HandleClose(c)
    else c.(input := c.input + r.bytes, trace := c.trace + [Message(r.bytes)])
  }

  // ---- runs on the loop's thread ----

  /** A step of the connection's own thread, with the kernel's answers. `Consume` is the message
      callback taking bytes out of the input buffer. */
  datatype Action =
    | EstablishStep
    | SendStep(message: string, w: WriteResult)
    | ShutdownStep
    | WriteStep(w: WriteResult)
    | ReadStep(r: ReadResult)
    | ConsumeStep(n: nat)
    | CloseStep
    | DestroyStep

  /** Events arrive on open connections; the server destroys a connection after `handleClose`. */
  predicate Enabled(c: Conn, a: Action) {
    match a
    case EstablishStep => c.state == Connecting
    case SendStep(message, w) => CanAnswer(w, message)
    case ShutdownStep => true
    case WriteStep(w) => Open(c.state) && CanAnswer(w, c.output)
    case ReadStep(r) => Open(c.state)
    case ConsumeStep(n) => n <= |c.input|
    case CloseStep => Open(c.state)
    case DestroyStep => c.closed
  }

  function Apply(c: Conn, a: Action): Conn
    requires Enabled(c, a)
  {
    match a
    case EstablishStep => ConnectEstablished(c)
    case SendStep(message, w) => Send(c, message, w)
    case ShutdownStep => Shutdown(c)
    case WriteStep(w) => HandleWrite(c, w)
    case ReadStep(r) => HandleRead(c, r)
    case ConsumeStep(n) => c.(input := c.input[n..])
    case CloseStep => HandleClose(c)
    case DestroyStep => ConnectDestroyed(c)
  }

  /** `None` for a sequence of steps that cannot happen. */
  function Run(c: Conn, steps: seq<Action>): Option<Conn>
    decreases |steps|
  {
    if steps == [] then Some(c)
    else if Enabled(c, steps[0]) then Run(Apply(c, steps[0]), steps[1..])
    else None
  }

  /** STREAM CONSERVATION: the wire followed by what still waits is what was accepted, in order. */
  ghost predicate Conserved(c: Conn) {
    && c.wire + c.output == Concat(c.accepted)
    && (c.faults == 0 ==> c.accepted == c.offered)
  }

  /** Writing interest is on exactly while bytes wait. */
  ghost predicate InterestExact(c: Conn) {
    !c.closed ==> (c.Writing() <==> c.output != "")
  }

  /** A half-close before `handleClose` finds everything accepted on the wire. */
  ghost predicate HalfClosesDrained(c: Conn) {
    forall h :: h in c.halfCloses && !h.afterClose ==> h.wire == Concat(h.accepted)
  }

  /** HALF-CLOSE AFTER DRAIN: at most one write shutdown, only after `shutdown`, and before
      `handleClose` it happens exactly when everything accepted is on the wire. */
  ghost predicate HalfClosedWell(c: Conn) {
    && |c.halfCloses| <= 1
    && (c.halfCloses != [] ==> (c.state == Disconnecting || c.state == Disconnected) && !c.Writing())
    && (c.state == Disconnecting && !c.closed ==> (c.halfCloses != [] <==> c.output == ""))
    && HalfClosesDrained(c)
    && (c.halfCloses != [] && !c.closed ==>
          !c.halfCloses[0].afterClose && c.halfCloses[0].wire == c.wire && c.halfCloses[0].accepted == c.accepted)
  }

  ghost predicate OnlyMessages(trace: seq<Callback>) {
    forall m :: m in trace ==> m.Message?
  }

  ghost predicate UpThenMessages(trace: seq<Callback>) {
    |trace| >= 1 && trace[0] == Up && OnlyMessages(trace[1..])
  }

  ghost predicate EndsWithDown(trace: seq<Callback>) {
    |trace| >= 2 && trace[0] == Up && trace[|trace| - 1] == Down && OnlyMessages(trace[1..|trace| - 1])
  }

  /** The callback trace: one up, then messages, then at most one down. */
  ghost predicate Shape(trace: seq<Callback>) {
    trace == [] || UpThenMessages(trace) || EndsWithDown(trace)
  }

  /** On the loop's own thread the state says which. */
  ghost predicate TraceShape(c: Conn) {
    match c.state
    case Connecting => c.trace == []
    case Disconnected => EndsWithDown(c.trace)
    case _ => UpThenMessages(c.trace)
  }

  ghost predicate Good(c: Conn) {
    && Conserved(c) && InterestExact(c) && HalfClosedWell(c) && TraceShape(c)
    && (c.state == Connecting ==> c.accepted == [] && !c.closed)
  }

  function Rank(s: State): nat {
    match s
    case Connecting => 0
    case Connected => 1
    case Disconnecting => 2
    case Disconnected => 3
  }

  lemma SendInLoopConserves(c: Conn, message: string, w: WriteResult)
    requires Conserved(c) && CanAnswer(w, message)
    ensures Conserved(SendInLoop(c, message, w))
  {
    hide Concat;
    var n := DirectlyWritten(c, w);
    var d := SendInLoop(c, message, w);
    ConcatSnoc(c.accepted, message);
    if c.state != Disconnected && !(c.Direct() && Fatal(w)) {
      SendInLoopFields(c, message, w);
      StreamSplit(c.wire, c.output, message, n);
    }
  }

  /** What an accepted message does to the connection. */
  lemma SendInLoopFields(c: Conn, message: string, w: WriteResult)
    requires c.state != Disconnected && !(c.Direct() && Fatal(w)) && CanAnswer(w, message)
    ensures var n := DirectlyWritten(c, w);
            var d := SendInLoop(c, message, w);
            && d == c.(offered := c.offered + [message], accepted := c.accepted + [message],
                       wire := c.wire + message[..n], output := d.output,
                       queued := d.queued, events := d.events, registered := d.registered)
            && d.output == c.output + message[n..]
            && (d.output == "" <==> c.output == "" && n == |message|)
            && d.events == (if n < |message| then c.events + {Out} else c.events)
            && (d.registered == if n < |message| && !c.Writing() then true else c.registered)
  {
  }

  /** What `sendInLoop` leaves alone, whatever becomes of the message. */
  lemma SendInLoopKeeps(c: Conn, message: string, w: WriteResult)
    requires CanAnswer(w, message)
    ensures var d := SendInLoop(c, message, w);
            && d.state == c.state && d.closed == c.closed && d.halfCloses == c.halfCloses
            && d.input == c.input && d.trace == c.trace && d.config == c.config
            && d.offered == if c.state == Disconnected then c.offered else c.offered + [message]
  {
  }

  lemma StreamSplit(wire: string, output: string, message: string, n: nat)
    requires n <= |message| && (n > 0 ==> output == "")
    ensures wire + message[..n] + (output + message[n..]) == wire + output + message
  {
    assert message == message[..n] + message[n..];
  }

  lemma HandleWriteConserves(c: Conn, w: WriteResult)
    requires Conserved(c) && CanAnswer(w, c.output)
    ensures Conserved(HandleWrite(c, w))
  {
    if w.Wrote? {
      assert c.output == c.output[..w.n] + c.output[w.n..];
      assert c.wire + c.output[..w.n] + c.output[w.n..] == c.wire + c.output;
    }
  }

  lemma SendKeepsGood(c: Conn, message: string, w: WriteResult)
    requires Good(c) && CanAnswer(w, message)
    ensures Good(Send(c, message, w))
  {
    hide Concat, Conserved;
    SendInLoopConserves(c, message, w);
    if c.state == Connected && !(c.Direct() && Fatal(w)) {
      SendInLoopFields(c, message, w);
      hide SendInLoop;
    }
  }

  lemma HalfCloseComplete(c: Conn)
    requires Conserved(c) && c.output == ""
    ensures c.wire == Concat(c.accepted)
  {
    assert c.wire + "" == c.wire;
  }

  lemma WriteKeepsGood(c: Conn, w: WriteResult)
    requires Good(c) && Open(c.state) && CanAnswer(w, c.output)
    ensures Good(HandleWrite(c, w))
  {
    hide Concat, Conserved;
    HandleWriteConserves(c, w);
    if HandleWrite(c, w).output == "" {
      HalfCloseComplete(HandleWrite(c, w));
    }
  }

  lemma ShutdownKeepsGood(c: Conn)
    requires Good(c)
    ensures Good(Shutdown(c))
  {
    hide Concat;
    if c.output == "" {
      HalfCloseComplete(c);
    }
  }

  lemma DestroyKeepsGood(c: Conn)
    requires Good(c) && c.closed
    ensures Good(ConnectDestroyed(c))
  {
    hide Concat;
    assert c.state == Connected ==> (c.trace + [Down])[1..|c.trace|] == c.trace[1..];
  }

  lemma EventKeepsGood(c: Conn, a: Action)
    requires Good(c) && Enabled(c, a)
    requires a.EstablishStep? || a.ConsumeStep? || a.CloseStep?
    ensures Good(Apply(c, a))
  {
    hide Concat;
  }

  lemma ReadKeepsGood(c: Conn, r: ReadResult)
    requires Good(c) && Open(c.state)
    ensures Good(HandleRead(c, r))
  {
    hide Concat;
    if r == Data("") {
      EventKeepsGood(c, CloseStep);
    }
  }

  lemma StateForward(c: Conn, a: Action)
    requires Enabled(c, a)
    ensures Rank(c.state) <= Rank(Apply(c, a).state)
  {
  }

  /** Every step keeps everything, and never moves the state backward. */
  lemma StepKeepsGood(c: Conn, a: Action)
    requires Good(c) && Enabled(c, a)
    ensures Good(Apply(c, a))
    ensures Rank(c.state) <= Rank(Apply(c, a).state)
  {
    hide Good, Send, HandleWrite, Shutdown, ConnectDestroyed, Rank;
    StateForward(c, a);
    match a {
      case SendStep(message, w) =>
        SendKeepsGood(c, message, w);
      case WriteStep(w) =>
        WriteKeepsGood(c, w);
      case ShutdownStep =>
        ShutdownKeepsGood(c);
      case DestroyStep =>
        DestroyKeepsGood(c);
      case ReadStep(r) =>
        ReadKeepsGood(c, r);
      case _ =>
        EventKeepsGood(c, a);
    }
  }

  /** Over every run, whatever the kernel answers. */
  lemma {:induction false} RunKeepsGood(c: Conn, steps: seq<Action>)
    requires Good(c) && Run(c, steps).Some?
    ensures Good(Run(c, steps).value)
    ensures Rank(c.state) <= Rank(Run(c, steps).value.state)
    decreases |steps|
  {
    if steps != [] {
      StepKeepsGood(c, steps[0]);
      RunKeepsGood(Apply(c, steps[0]), steps[1..]);
    }
  }

  /** The theorem for a connection: any run from its creation. */
  lemma EveryRunIsGood(config: Config, steps: seq<Action>)
    requires Run(NewConn(config), steps).Some?
    ensures Good(Run(NewConn(config), steps).value)
  {
    RunKeepsGood(NewConn(config), steps);
  }

  /** A write-complete callback is queued only by steps after which everything accepted is on the wire:
      never early. */
  lemma WriteCompleteIsNotEarly(c: Conn, a: Action)
    requires Good(c) && Enabled(c, a)
    requires |Apply(c, a).queued| > |c.queued| && Apply(c, a).queued[|c.queued|] == WriteComplete
    ensures Apply(c, a).output == "" && Apply(c, a).wire == Concat(Apply(c, a).accepted)
  {
    StepKeepsGood(c, a);
    var d := Apply(c, a);
    assert d.output == "";
    assert d.wire + "" == d.wire;
  }

  /** Why the theorem stops at `handleClose`: it drops the writing interest with bytes still waiting,
      and a later `shutdown` then half-closes before they are sent. */
  lemma HalfCloseAfterCloseCutsBytes(config: Config) returns (steps: seq<Action>)
    ensures Run(NewConn(config), steps).Some?
    ensures var c := Run(NewConn(config), steps).value;
            |c.halfCloses| == 1 && c.halfCloses[0].wire != Concat(c.halfCloses[0].accepted)
  {
    hide Run, SendInLoop;
    var c0 := NewConn(config);
    var s1 := [EstablishStep];
    var s2 := s1 + [SendStep("ab", Wrote(1))];
    var s3 := s2 + [CloseStep];
    steps := s3 + [ShutdownStep];
    NoSteps(c0);
    SendInLoopFields(ConnectEstablished(c0), "ab", Wrote(1));
    RunSnoc(c0, [], EstablishStep);
    assert [] + [EstablishStep] == s1;
    RunSnoc(c0, s1, SendStep("ab", Wrote(1)));
    RunSnoc(c0, s2, CloseStep);
    RunSnoc(c0, s3, ShutdownStep);
    assert Concat(["ab"]) == "ab" + Concat([]);
  }

  /** Exactly when a half-close cuts bytes: when `shutdown` itself makes it, with bytes in the output
      buffer. That takes a `handleClose` before it. */
  lemma HalfCloseCutsExactly(c: Conn, a: Action)
    requires Good(c) && Enabled(c, a)
    requires |Apply(c, a).halfCloses| > |c.halfCloses|
    ensures var h := Apply(c, a).halfCloses[|c.halfCloses|];
            && (h.wire != Concat(h.accepted) <==> a == ShutdownStep && c.output != "")
            && (h.wire != Concat(h.accepted) ==> c.closed)
  {
    hide Concat;
    if a == ShutdownStep {
      HalfCloseWhole(c);
    } else {
      StepKeepsGood(c, a);
      HalfCloseComplete(Apply(c, a));
    }
  }

  /** Any `shutdown` of a connection that is not writing half-closes, and completely exactly when the
      output buffer is empty. */
  lemma HalfCloseWhole(c: Conn)
    requires Conserved(c) && c.state == Connected && !c.Writing()
    ensures var d := Shutdown(c);
            && d.halfCloses == c.halfCloses + [HalfClose(c.wire, c.accepted, c.closed)]
            && (c.wire == Concat(c.accepted) <==> c.output == "")
  {
    assert |c.wire + c.output| == |c.wire| + |c.output|;
    assert c.output == "" ==> c.wire + c.output == c.wire;
  }

  lemma NoSteps(c: Conn)
    ensures Run(c, []) == Some(c)
  {
  }

  lemma {:induction false} RunSnoc(c: Conn, steps: seq<Action>, a: Action)
    requires Run(c, steps).Some? && Enabled(Run(c, steps).value, a)
    ensures Run(c, steps + [a]) == Some(Apply(Run(c, steps).value, a))
    decreases |steps|
  {
    hide Apply, Enabled;
    if steps == [] {
      assert steps + [a] == [a];
    } else {
      assert (steps + [a])[1..] == steps[1..] + [a];
      RunSnoc(Apply(c, steps[0]), steps[1..], a);
    }
  }

  /** Once `shutdown` was called, nothing more is accepted. */
  lemma {:induction false} NothingAcceptedAfterShutdown(c: Conn, steps: seq<Action>)
    requires c.state == Disconnecting || c.state == Disconnected
    requires Run(c, steps).Some?
    ensures var d := Run(c, steps).value;
            d.accepted == c.accepted && (d.state == Disconnecting || d.state == Disconnected)
    decreases |steps|
  {
    if steps != [] {
      NothingAcceptedAfterShutdown(Apply(c, steps[0]), steps[1..]);
    }
  }

  // ---- the kernel's side of the output ----

  /** One call of `write`: the bytes offered, and the answer. */
  type WriteCall = (string, WriteResult)

  /** The kernel puts the first bytes offered on the wire, as many as it says. */
  function Delivered(call: WriteCall): string {
    if call.1.Wrote? && call.1.n <= |call.0| then call.0[..call.1.n] else ""
  }

  function DeliveredAll(calls: seq<WriteCall>): string {
    if calls == [] then "" else DeliveredAll(calls[..|calls| - 1]) + Delivered(calls[|calls| - 1])
  }

  /** The descriptor. Only its own methods touch the record of calls. */
  class Socket {
    ghost var calls: seq<WriteCall>

    constructor ()
      ensures calls == []
    {
      calls := [];
    }

    ghost function Wire(): string
      reads this
    {
      DeliveredAll(calls)
    }

    /** `::write`, which answers `w`. */
    method Write(bytes: string, w: WriteResult) returns (n: int)
      requires CanAnswer(w, bytes)
      modifies this
      ensures calls == old(calls) + [(bytes, w)]
      ensures Wire() == old(Wire()) + Delivered((bytes, w))
      ensures n == if w.Wrote? then w.n else -1
    {
      calls := calls + [(bytes, w)];
      assert calls[..|calls| - 1] == old(calls);
      n := if w.Wrote? then w.n else -1;
    }
  }

  // ---- the connection object ----

  class TcpConnection {
    const config: Config
    const channel: Channel
    const poller: EPollPoller
    const socket: Socket
    const inputBuffer: Buffer
    const outputBuffer: Buffer
    var state: State
    ghost var offered: seq<string>
    ghost var accepted: seq<string>
    ghost var faults: nat
    ghost var halfCloses: seq<HalfClose>
    ghost var trace: seq<Callback>
    ghost var queued: seq<Queued>
    ghost var closed: bool

    ghost predicate Valid()
      reads this, inputBuffer, outputBuffer, poller, poller.world
    {
      && inputBuffer.Valid() && outputBuffer.Valid()
      && inputBuffer != outputBuffer && inputBuffer.data != outputBuffer.data
      && poller.Valid() && channel in poller.world
    }

    ghost function Abs(): Conn
      requires Valid()
      reads this, socket, inputBuffer, inputBuffer.data, outputBuffer, outputBuffer.data, poller, poller.world
    {
      Conn(config, state, channel.events, channel.status == Added, inputBuffer.Contents(), outputBuffer.Contents(),
           offered, accepted, faults, socket.Wire(), halfCloses, trace, queued, closed)
    }

    constructor (config: Config, channel: Channel, poller: EPollPoller)
      requires poller.Valid() && channel in poller.world
      requires channel.events == {} && channel.status == Status.New
      ensures Valid() && Abs() == NewConn(config)
      ensures fresh(inputBuffer) && fresh(inputBuffer.data) && fresh(outputBuffer) && fresh(outputBuffer.data)
      ensures this.channel == channel && this.poller == poller && fresh(socket)
    {
      this.config, this.channel, this.poller := config, channel, poller;
      state := Connecting;
      socket := new Socket();
      inputBuffer := new Buffer();
      outputBuffer := new Buffer();
      offered, accepted, faults := [], [], 0;
      halfCloses, trace, queued, closed := [], [], [], false;
    }

    /** `enable*`, `disable*` and `disableAll` of the connection's channel. */
    method ChangeMask(mask: set<Event>)
      requires Valid()
      modifies channel, poller`channels, poller`kernel
      ensures Valid() && Abs() == SetMask(old(Abs()), mask)
      ensures channel.events == mask
    {
      channel.SetEvents(poller, mask);
    }

    method InLoopSend(message: string, w: WriteResult)
      requires Valid() && CanAnswer(w, message)
      modifies this, socket, outputBuffer, outputBuffer.data, channel, poller`channels, poller`kernel
      ensures Valid() && Abs() == SendInLoop(old(Abs()), message, w)
      ensures outputBuffer.data == old(outputBuffer.data) || fresh(outputBuffer.data)
    {
      hide QueueRest, WriteNow, DirectlyWritten, EPollPoller.OnlyKnown, EPollPoller.Agrees;
      if state == Disconnected {
        return;
      }
      var nwrote, faultError := TryWrite(message, w);
      if faultError {
        offered, faults := offered + [message], faults + 1;
      } else {
        QueueInOutput(message[nwrote..]);
      }
    }

    /** The head of `sendInLoop`: the direct write when nothing waits. Unless it fails for good the message
        is then in the stream. */
    method TryWrite(message: string, w: WriteResult) returns (nwrote: nat, faultError: bool)
      requires Valid() && CanAnswer(w, message)
      modifies this`queued, this`offered, this`accepted, socket
      ensures Valid() && nwrote == DirectlyWritten(old(Abs()), w) <= |message|
      ensures faultError <==> old(Abs()).Direct() && Fatal(w)
      ensures Abs() == if faultError then old(Abs()) else WriteNow(old(Abs()), message, nwrote, w)
    {
      hide EPollPoller.OnlyKnown, EPollPoller.Agrees, DeliveredAll;
      nwrote, faultError := 0, false;
      var waiting := outputBuffer.ReadableBytes();
      if !channel.IsWriting() && waiting == 0 {
        var n := socket.Write(message, w);
        if n >= 0 {
          nwrote := n;
          if nwrote == |message| && config.onWriteComplete {
            queued := queued + [WriteComplete];
          }
        } else if w.errno == EPipe || w.errno == EConnReset {
          faultError := true;
        }
      }
      if !faultError {
        offered, accepted := offered + [message], accepted + [message];
      }
    }

    /** The tail of `sendInLoop`: high-water mark, append, writing interest. */
    method QueueInOutput(rest: string)
      requires Valid()
      modifies this`queued, outputBuffer, outputBuffer.data, channel, poller`channels, poller`kernel
      ensures Valid() && Abs() == QueueRest(old(Abs()), rest)
      ensures outputBuffer.data == old(outputBuffer.data) || fresh(outputBuffer.data)
    {
      hide SetMask, EPollPoller.OnlyKnown, EPollPoller.Agrees;
      if |rest| > 0 {
        var waiting := outputBuffer.ReadableBytes();
        if waiting + |rest| >= config.highWaterMark && waiting < config.highWaterMark && config.onHighWaterMark {
          queued := queued + [HighWaterMark(waiting + |rest|)];
        }
        outputBuffer.Append(rest);
        if !channel.IsWriting() {
          ChangeMask(channel.events + {Out});
        }
      }
    }

    method InLoopShutdown()
      requires Valid()
      modifies this`halfCloses
      ensures Valid() && Abs() == ShutdownInLoop(old(Abs()))
    {
      if !channel.IsWriting() {
        halfCloses := halfCloses + [HalfClose(socket.Wire(), accepted, closed)];
      }
    }

    method OnWritable(w: WriteResult)
      requires Valid() && CanAnswer(w, outputBuffer.Contents())
      modifies this, socket, outputBuffer, channel, poller`channels, poller`kernel
      ensures Valid() && Abs() == HandleWrite(old(Abs()), w)
      ensures outputBuffer.data == old(outputBuffer.data)
    {
      hide Drained, DeliveredAll, EPollPoller.OnlyKnown, EPollPoller.Agrees;
      if channel.IsWriting() {
        var unsent := outputBuffer.ReadableBytes();
        var bytes := outputBuffer.Peek(unsent);
        assert bytes == outputBuffer.Contents();
        var n := socket.Write(bytes, w);
        if n > 0 {
          outputBuffer.Retrieve(n);
          var waiting := outputBuffer.ReadableBytes();
          if waiting == 0 {
            FinishDrain();
          }
        }
      }
    }

    /** The tail of `handleWrite`, once nothing waits. */
    method FinishDrain()
      requires Valid()
      modifies this`queued, this`halfCloses, channel, poller`channels, poller`kernel
      ensures Valid() && Abs() == Drained(old(Abs()))
    {
      hide SetMask, EPollPoller.OnlyKnown, EPollPoller.Agrees;
      ChangeMask(channel.events - {Out});
      if config.onWriteComplete {
        queued := queued + [WriteComplete];
      }
      if state == Disconnecting {
        InLoopShutdown();
      }
    }

    /** `send(const std::string&)` and `send(const void*, size_t)` on the loop's thread. */
    method SendMessage(message: string, w: WriteResult)
      requires Valid() && CanAnswer(w, message)
      modifies this, socket, outputBuffer, outputBuffer.data, channel, poller`channels, poller`kernel
      ensures Valid() && Abs() == Send(old(Abs()), message, w)
      ensures outputBuffer.data == old(outputBuffer.data) || fresh(outputBuffer.data)
    {
      if state == Connected {
        InLoopSend(message, w);
      }
    }

    /** `send(Buffer*)` on the loop's thread: the buffer is emptied when it is sent. */
    method SendBuffer(message: Buffer, w: WriteResult)
      requires Valid() && message.Valid()
      requires message != inputBuffer && message != outputBuffer
      requires message.data != inputBuffer.data && message.data != outputBuffer.data
      requires CanAnswer(w, message.Contents())
      modifies this, socket, outputBuffer, outputBuffer.data, channel, poller`channels, poller`kernel
      modifies message`reader, message`writer
      ensures Valid() && Abs() == Send(old(Abs()), old(message.Contents()), w)
      ensures outputBuffer.data == old(outputBuffer.data) || fresh(outputBuffer.data)
      ensures message.Valid() && message.Contents() == if old(state) == Connected then "" else old(message.Contents())
    {
      if state == Connected {
        var n := message.ReadableBytes();
        var bytes := message.Peek(n);
        assert bytes == message.Contents();
        InLoopSend(bytes, w);
        message.RetrieveAll();
      }
    }

    method CloseWrite()
      requires Valid()
      modifies this
      ensures Valid() && Abs() == Shutdown(old(Abs()))
    {
      if state == Connected {
        state := Disconnecting;
        InLoopShutdown();
      }
    }

    method Establish()
      requires Valid() && state == Connecting
      modifies this, channel, poller`channels, poller`kernel
      ensures Valid() && Abs() == ConnectEstablished(old(Abs()))
    {
      state := Connected;
      ChangeMask(channel.events + READ_EVENTS);
      trace := trace + [Up];
    }

    method Destroy()
      requires Valid()
      modifies this, channel, poller`channels, poller`kernel
      ensures Valid() && Abs() == ConnectDestroyed(old(Abs()))
    {
      if state == Connected {
        state := Disconnected;
        ChangeMask({});
        trace := trace + [Down];
      }
      channel.RemoveFrom(poller);
    }

    method OnClose()
      requires Valid() && Open(state)
      modifies this, channel, poller`channels, poller`kernel
      ensures Valid() && Abs() == HandleClose(old(Abs()))
    {
      ChangeMask({});
      closed := true;
    }

    /** `n > 0` tells the caller to run the message callback. */
    method OnReadable(r: ReadResult) returns (n: int)
      requires Valid() && Open(state)
      requires r.Data? ==> |r.bytes| <= inputBuffer.ReadCapacity()
      modifies this, inputBuffer, inputBuffer.data, channel, poller`channels, poller`kernel
      ensures Valid() && Abs() == HandleRead(old(Abs()), r)
      ensures n == if r.Data? then |r.bytes| else -1
      ensures inputBuffer.data == old(inputBuffer.data) || fresh(inputBuffer.data)
    {
      hide HandleClose, EPollPoller.OnlyKnown, EPollPoller.Agrees;
      n := inputBuffer.ReadFd(r);
      assert n == 0 ==> old(inputBuffer.Contents()) + r.bytes == old(inputBuffer.Contents());
      assert n == 0 ==> Abs() == old(Abs());
      if n > 0 {
        trace := trace + [Message(r.bytes)];
      } else if n == 0 {
        OnClose();
      }
    }
  }
}
