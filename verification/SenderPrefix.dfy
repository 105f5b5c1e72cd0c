/** When the messages of a thread that entered the stream are the first of those it sent. */
module SenderPrefixes {
  import opened Text
  import opened SenderOrders
  import TcpConnections
  import EventLoops

  /** Of the thread's messages, none has fate `true` behind one with fate `false`. */
  ghost predicate FirstOnes(who: Thread, ms: seq<Sent>, fates: seq<bool>)
    requires |ms| == |fates|
  {
    forall i, j :: 0 <= i < j < |ms| && ms[i].0 == who == ms[j].0 && fates[j] ==> fates[i]
  }

  ghost predicate AnyLost(who: Thread, ms: seq<Sent>, fates: seq<bool>)
    requires |ms| == |fates|
  {
    exists i :: 0 <= i < |ms| && ms[i].0 == who && !fates[i]
  }

  lemma FirstOnesSnoc(who: Thread, ms: seq<Sent>, fates: seq<bool>, m: Sent, f: bool)
    requires |ms| == |fates|
    ensures FirstOnes(who, ms + [m], fates + [f])
       <==> FirstOnes(who, ms, fates) && !(m.0 == who && f && AnyLost(who, ms, fates))
    ensures AnyLost(who, ms + [m], fates + [f]) <==> AnyLost(who, ms, fates) || (m.0 == who && !f)
  {
    var all, flags, n := ms + [m], fates + [f], |ms|;
    if AnyLost(who, ms, fates) {
      var i :| 0 <= i < n && ms[i].0 == who && !fates[i];
      assert all[i] == ms[i] && flags[i] == fates[i];
      assert m.0 == who && f ==> all[i].0 == who == all[n].0 && flags[n] && !flags[i];
    }
    assert all[n] == m && flags[n] == f;
    if FirstOnes(who, all, flags) {
      forall i, j | 0 <= i < j < n && ms[i].0 == who == ms[j].0 && fates[j] ensures fates[i] {
        assert all[i] == ms[i] && all[j] == ms[j] && flags[i] == fates[i] && flags[j] == fates[j];
      }
    }
  }

  /** What the theorems are about: the thread's entered messages are the first of those taken from it. */
  ghost predicate FirstOnesEntered(y: System, who: Thread) {
    |y.taken| == |y.fates| && FirstOnes(who, y.taken, y.fates)
  }

  // ---- the tests a message meets in `sendInLoop` ----

  predicate TakesFrom(y: System, s: Step, who: Thread)
    requires Enabled(y, s)
  {
    TakenIn(y, s) != [] && TakenIn(y, s)[0].0 == who
  }

  /** The message of the thread gets into the stream. */
  predicate Enters(y: System, s: Step, who: Thread)
    requires Enabled(y, s)
  {
    TakesFrom(y, s, who) && Accepts(y.conn, ResultIn(s))
  }

  /** Its direct write fails for good, and it is dropped. */
  predicate Drops(y: System, s: Step, who: Thread)
    requires Enabled(y, s)
  {
    TakesFrom(y, s, who) && y.conn.state != TcpConnections.Disconnected
    && y.conn.Direct() && TcpConnections.Fatal(ResultIn(s))
  }

  /** The connection is down, and it is given up. */
  predicate GivesUp(y: System, s: Step, who: Thread)
    requires Enabled(y, s)
  {
    TakesFrom(y, s, who) && y.conn.state == TcpConnections.Disconnected
  }

  predicate EntersLater(y: System, steps: seq<Step>, who: Thread)
    decreases |steps|
  {
    && steps != [] && Enabled(y, steps[0])
    && (Enters(y, steps[0], who) || EntersLater(Apply(y, steps[0]), steps[1..], who))
  }

  /** A store over `kDisconnected`, and a message of the thread entering behind it. */
  predicate EntersAfterOverwrite(y: System, steps: seq<Step>, who: Thread)
    decreases |steps|
  {
    && steps != [] && Enabled(y, steps[0])
    && var z, rest := Apply(y, steps[0]), steps[1..];
       (Overwrites(y, steps[0]) && EntersLater(z, rest, who)) || EntersAfterOverwrite(z, rest, who)
  }

  /** Somewhere in the run a message of the thread is dropped, or is given up with a store over
      `kDisconnected` behind it, and then another enters. */
  predicate OutOfOrder(y: System, steps: seq<Step>, who: Thread)
    decreases |steps|
  {
    && steps != [] && Enabled(y, steps[0])
    && var z, rest := Apply(y, steps[0]), steps[1..];
       || (Drops(y, steps[0], who) && EntersLater(z, rest, who))
       || (GivesUp(y, steps[0], who) && EntersAfterOverwrite(z, rest, who))
       || OutOfOrder(z, rest, who)
  }

  lemma {:induction false} OverwriteThenLater(y: System, steps: seq<Step>, who: Thread)
    requires EntersAfterOverwrite(y, steps, who)
    ensures EntersLater(y, steps, who)
    decreases |steps|
  {
    hide Apply, Enabled, Enters, Overwrites;
    if EntersAfterOverwrite(Apply(y, steps[0]), steps[1..], who) {
      OverwriteThenLater(Apply(y, steps[0]), steps[1..], who);
    }
  }

  /** While the connection is down nothing enters: first comes the store. */
  lemma {:induction false} LaterOnlyByOverwrite(y: System, steps: seq<Step>, who: Thread)
    requires y.conn.state == TcpConnections.Disconnected && EntersLater(y, steps, who)
    ensures EntersAfterOverwrite(y, steps, who)
    decreases |steps|
  {
    StaysDisconnected(y, steps[0]);
    hide Apply, Enabled, TakesFrom, ResultIn;
    if !Overwrites(y, steps[0]) {
      LaterOnlyByOverwrite(Apply(y, steps[0]), steps[1..], who);
    }
  }

  lemma StepFirstOnes(y: System, s: Step, who: Thread)
    requires Enabled(y, s) && |y.taken| == |y.fates|
    ensures |Apply(y, s).taken| == |Apply(y, s).fates|
    ensures FirstOnesEntered(Apply(y, s), who)
       <==> FirstOnesEntered(y, who) && !(Enters(y, s, who) && AnyLost(who, y.taken, y.fates))
    ensures AnyLost(who, Apply(y, s).taken, Apply(y, s).fates)
       <==> AnyLost(who, y.taken, y.fates) || Drops(y, s, who) || GivesUp(y, s, who)
  {
    StepFates(y, s);
    var t := TakenIn(y, s);
    hide Apply, Enabled, TakenIn, ResultIn, FirstOnes, AnyLost;
    if t == [] {
      assert y.taken + t == y.taken && y.fates + [] == y.fates;
    } else {
      assert t == [t[0]];
      FirstOnesSnoc(who, y.taken, y.fates, t[0], Accepts(y.conn, ResultIn(s)));
    }
  }

  /** Whether something enters behind a message that is given up depends on a store only. */
  lemma GivenUpLater(y: System, s: Step, rest: seq<Step>, who: Thread)
    requires Enabled(y, s) && GivesUp(y, s, who)
    ensures EntersLater(Apply(y, s), rest, who) <==> EntersAfterOverwrite(Apply(y, s), rest, who)
  {
    StaysDisconnected(y, s);
    assert !Overwrites(y, s);
    hide Apply, Enabled, EntersLater, EntersAfterOverwrite;
    if EntersLater(Apply(y, s), rest, who) {
      LaterOnlyByOverwrite(Apply(y, s), rest, who);
    }
    if EntersAfterOverwrite(Apply(y, s), rest, who) {
      OverwriteThenLater(Apply(y, s), rest, who);
    }
  }

  lemma {:induction false} RunFirstOnes(y: System, steps: seq<Step>, who: Thread)
    requires |y.taken| == |y.fates| && Play(y, steps).Some?
    ensures FirstOnesEntered(Play(y, steps).value, who)
       <==> && FirstOnesEntered(y, who) && !OutOfOrder(y, steps, who)
            && !(AnyLost(who, y.taken, y.fates) && EntersLater(y, steps, who))
    decreases |steps|
  {
    hide Apply, Enabled, FirstOnesEntered, AnyLost, Enters, Drops, GivesUp, EntersAfterOverwrite;
    if steps != [] {
      StepFirstOnes(y, steps[0], who);
      RunFirstOnes(Apply(y, steps[0]), steps[1..], who);
      if GivesUp(y, steps[0], who) {
        GivenUpLater(y, steps[0], steps[1..], who);
      }
    }
  }

  /** EXACTLY WHEN the messages of a thread that entered are the first of those it sent: unless one was
      dropped by a direct write that failed for good, or given up on a connection that was down and
      brought back by a store over `kDisconnected`, and another entered behind it. */
  lemma FirstOnesExactly(config: TcpConnections.Config, steps: seq<Step>, who: Thread)
    requires Play(NewSystem(config), steps).Some?
    ensures FirstOnesEntered(Play(NewSystem(config), steps).value, who)
       <==> !OutOfOrder(NewSystem(config), steps, who)
  {
    hide OutOfOrder, EntersLater, Play;
    RunFirstOnes(NewSystem(config), steps, who);
  }

  // ---- when it is guaranteed ----

  predicate NoOverwrite(y: System, steps: seq<Step>)
    decreases |steps|
  {
    steps != [] && Enabled(y, steps[0]) ==>
      !Overwrites(y, steps[0]) && NoOverwrite(Apply(y, steps[0]), steps[1..])
  }

  predicate NoDrop(y: System, steps: seq<Step>, who: Thread)
    decreases |steps|
  {
    steps != [] && Enabled(y, steps[0]) ==>
      !Drops(y, steps[0], who) && NoDrop(Apply(y, steps[0]), steps[1..], who)
  }

  lemma {:induction false} NothingAfterOverwrite(y: System, steps: seq<Step>, who: Thread)
    requires NoOverwrite(y, steps)
    ensures !EntersAfterOverwrite(y, steps, who)
    decreases |steps|
  {
    hide Apply, Enabled, Overwrites, EntersLater;
    if steps != [] && Enabled(y, steps[0]) {
      NothingAfterOverwrite(Apply(y, steps[0]), steps[1..], who);
    }
  }

  lemma {:induction false} GuardedInOrder(y: System, steps: seq<Step>, who: Thread)
    requires NoOverwrite(y, steps) && NoDrop(y, steps, who)
    ensures !OutOfOrder(y, steps, who)
    decreases |steps|
  {
    hide Apply, Enabled, Overwrites, Drops, GivesUp, EntersLater, EntersAfterOverwrite;
    if steps != [] && Enabled(y, steps[0]) {
      NothingAfterOverwrite(Apply(y, steps[0]), steps[1..], who);
      GuardedInOrder(Apply(y, steps[0]), steps[1..], who);
    }
  }

  /** So a thread's entered messages are, in call order, the first of those it sent, in every run without
      a store over `kDisconnected` in which no direct write of a message of its own fails for good. */
  lemma GuardedOrder(config: TcpConnections.Config, steps: seq<Step>, who: Thread)
    requires Play(NewSystem(config), steps).Some?
    requires NoOverwrite(NewSystem(config), steps) && NoDrop(NewSystem(config), steps, who)
    ensures var y := Play(NewSystem(config), steps).value;
            FirstOnesEntered(y, who) && Of(who, Entered(y)) <= Of(who, y.sent)
  {
    hide Play, NoOverwrite, NoDrop, OutOfOrder, FirstOnesEntered, Of, Entered;
    GuardedInOrder(NewSystem(config), steps, who);
    FirstOnesExactly(config, steps, who);
    FirstOnesArePrefix(config, steps, who);
  }

  /** After any run: what entered in this order is a prefix of what was sent. */
  lemma FirstOnesArePrefix(config: TcpConnections.Config, steps: seq<Step>, who: Thread)
    requires Play(NewSystem(config), steps).Some?
    requires FirstOnesEntered(Play(NewSystem(config), steps).value, who)
    ensures var y := Play(NewSystem(config), steps).value;
            |y.taken| == |y.fates| && Of(who, Entered(y)) <= Of(who, y.sent)
  {
    hide Sound, Play, FirstOnes, Of, Kept, Waiting, InHand;
    NewIsSound(config);
    PlayKeepsSound(NewSystem(config), steps);
    var y := Play(NewSystem(config), steps).value;
    AccountOf(y, who);
    KeptIsPrefix(who, y.taken, y.fates);
    var rest := Waiting(who, y.loop.batch) + Waiting(who, y.loop.pending) + InHand(who, y.stage);
    assert Of(who, y.taken) + rest == Of(who, y.sent);
  }

  lemma {:induction false} KeptIsPrefix(who: Thread, ms: seq<Sent>, fates: seq<bool>)
    requires |ms| == |fates| && FirstOnes(who, ms, fates)
    ensures Of(who, Kept(ms, fates, true)) <= Of(who, ms)
    decreases |ms|
  {
    if ms != [] {
      var n := |ms| - 1;
      var before, flags, m, f := ms[..n], fates[..n], ms[n], fates[n];
      assert ms == before + [m] && fates == flags + [f];
      hide Of, Kept, FirstOnes, AnyLost;
      FirstOnesSnoc(who, before, flags, m, f);
      KeptIsPrefix(who, before, flags);
      KeptOfSnoc(who, before, flags, m, f, true);
      OfSnoc(who, before, m);
      if m.0 == who && f {
        NoneLost(who, before, flags);
        AllKept(who, before, flags);
      }
    }
  }

  lemma {:induction false} NoneLost(who: Thread, ms: seq<Sent>, fates: seq<bool>)
    requires |ms| == |fates| && !AnyLost(who, ms, fates)
    ensures Of(who, Kept(ms, fates, false)) == []
    decreases |ms|
  {
    if ms != [] {
      var n := |ms| - 1;
      assert ms == ms[..n] + [ms[n]] && fates == fates[..n] + [fates[n]];
      hide Of, Kept, AnyLost;
      FirstOnesSnoc(who, ms[..n], fates[..n], ms[n], fates[n]);
      NoneLost(who, ms[..n], fates[..n]);
      KeptOfSnoc(who, ms[..n], fates[..n], ms[n], fates[n], false);
    }
  }

  // ---- errors that last ----

  /** Every direct write of the run fails for good. */
  predicate FatalAgain(y: System, steps: seq<Step>)
    decreases |steps|
  {
    steps != [] && Enabled(y, steps[0]) ==>
      && (TakenIn(y, steps[0]) != [] && y.conn.state != TcpConnections.Disconnected && y.conn.Direct() ==>
            TcpConnections.Fatal(ResultIn(steps[0])))
      && FatalAgain(Apply(y, steps[0]), steps[1..])
  }

  /** As EPIPE and ECONNRESET do: once a direct write failed for good, every later one does. */
  predicate FatalLasts(y: System, steps: seq<Step>)
    decreases |steps|
  {
    steps != [] && Enabled(y, steps[0]) ==>
      var s, z, rest := steps[0], Apply(y, steps[0]), steps[1..];
      && (TakenIn(y, s) != [] && y.conn.state != TcpConnections.Disconnected && !Accepts(y.conn, ResultIn(s)) ==>
            FatalAgain(z, rest))
      && FatalLasts(z, rest)
  }

  /** A step that lets nothing in leaves an idle connection idle. */
  lemma StaysDirect(y: System, s: Step)
    requires Enabled(y, s) && y.conn.Direct()
    requires TakenIn(y, s) != [] ==> !Accepts(y.conn, ResultIn(s))
    ensures Apply(y, s).conn.Direct() && Apply(y, s).conn.accepted == y.conn.accepted
  {
    hide EventLoops.Apply, EventLoops.Enabled, TcpConnections.WriteNow, TcpConnections.QueueRest;
  }

  /** Then nothing enters any more, whoever sends. */
  lemma {:induction false} NothingEntersAgain(y: System, steps: seq<Step>, who: Thread)
    requires y.conn.Direct() && FatalAgain(y, steps) && Play(y, steps).Some?
    ensures !EntersLater(y, steps, who)
    ensures Play(y, steps).value.conn.accepted == y.conn.accepted
    decreases |steps|
  {
    if steps != [] {
      StaysDirect(y, steps[0]);
      hide Apply, Enabled, TakenIn, ResultIn, TcpConnections.Fatal;
      NothingEntersAgain(Apply(y, steps[0]), steps[1..], who);
    }
  }

  lemma {:induction false} FatalInOrder(y: System, steps: seq<Step>, who: Thread)
    requires Play(y, steps).Some? && NoOverwrite(y, steps) && FatalLasts(y, steps)
    ensures !OutOfOrder(y, steps, who)
    decreases |steps|
  {
    if steps != [] {
      if Drops(y, steps[0], who) {
        StaysDirect(y, steps[0]);
      }
      hide Apply, Enabled, Overwrites, TakenIn, ResultIn, EntersLater, EntersAfterOverwrite, FatalAgain;
      NothingAfterOverwrite(Apply(y, steps[0]), steps[1..], who);
      FatalInOrder(Apply(y, steps[0]), steps[1..], who);
      if Drops(y, steps[0], who) {
        NothingEntersAgain(Apply(y, steps[0]), steps[1..], who);
      }
    }
  }

  /** With errors that last, the store over `kDisconnected` alone can break the order: without it every
      thread's entered messages are the first of those it sent. */
  lemma FatalOrder(config: TcpConnections.Config, steps: seq<Step>, who: Thread)
    requires Play(NewSystem(config), steps).Some?
    requires NoOverwrite(NewSystem(config), steps) && FatalLasts(NewSystem(config), steps)
    ensures var y := Play(NewSystem(config), steps).value;
            FirstOnesEntered(y, who) && Of(who, Entered(y)) <= Of(who, y.sent)
  {
    hide Play, NoOverwrite, FatalLasts, OutOfOrder, FirstOnesEntered, Of, Entered;
    FatalInOrder(NewSystem(config), steps, who);
    FirstOnesExactly(config, steps, who);
    FirstOnesArePrefix(config, steps, who);
  }
}
