/** The event loop's task queue under interleaved threads: one step is one critical section, one
    wakeup write, or one move of the loop's thread. */
module EventLoops {
  import opened Text

  datatype Thread = LoopThread | Other(id: nat)

  /** Where the loop's thread is. `Idle` is outside `loop()`; `Polling` is from the `quit_` test to the
      return of `poll`; `Dispatching` covers event handlers and timers; `Calling` and `Batch` are
      `doPendingFunctors` before and after the swap. */
  datatype Phase = Idle | Polling | Dispatching | Calling | Batch

  /** `counter` is the eventfd, `waking` the threads between their push and their wakeup. Histories:
      `queued` all functors ever pushed, `ran` those begun, `swaps` the batches taken; `queuedAt[i]`
      and `origin[i]` are the number of batches taken, and the thread and phase, when `queued[i]` was
      pushed; `ranAt[i]` is the batch in which `ran[i]` began. */
  datatype Loop<T> = Loop(
    phase: Phase,
    calling: bool,
    quit: bool,
    pending: seq<T>,
    batch: seq<T>,
    counter: nat,
    waking: set<Thread>,
    queued: seq<T>,
    ran: seq<T>,
    swaps: nat,
    queuedAt: seq<nat>,
    ranAt: seq<nat>,
    origin: seq<(Thread, Phase)>)

  function NewLoop<T>(): Loop<T> {
    Loop(Idle, false, false, [], [], 0, {}, [], [], 0, [], [], [])
  }

  datatype Step<T> =
    | Enter
    | Push(who: Thread, f: T)
    | Wake(who: Thread)
    | RequestQuit(who: Thread)
    | PollReturns
    | HandleWakeup
    | BeginCalling
    | Swap
    | RunNext
    | EndBatch

  /** The loop's thread runs user code only outside the loop, in handlers and timers, and in functors. */
  predicate RunsUserCode(p: Phase) {
    p == Idle || p == Dispatching || p == Batch
  }

  predicate Enabled<T>(l: Loop<T>, s: Step<T>) {
    match s
    case Push(t, _) => t !in l.waking && (t == LoopThread ==> RunsUserCode(l.phase))
    case Wake(t) => t in l.waking
    case RequestQuit(t) => t !in l.waking && (t == LoopThread ==> RunsUserCode(l.phase))
    case Enter => l.phase == Idle && LoopThread !in l.waking
    case PollReturns => l.phase == Polling
    case HandleWakeup => l.phase == Dispatching && LoopThread !in l.waking
    case BeginCalling => l.phase == Dispatching && LoopThread !in l.waking
    case Swap => l.phase == Calling
    case RunNext => l.phase == Batch && l.batch != [] && LoopThread !in l.waking
    case EndBatch => l.phase == Batch && l.batch == [] && LoopThread !in l.waking
  }

  function Apply<T>(l: Loop<T>, s: Step<T>): Loop<T>
    requires Enabled(l, s)
  {
    match s
    case Push(t, f) =>
      l.(pending := l.pending + [f],
         queued := l.queued + [f],
         queuedAt := l.queuedAt + [l.swaps],
         origin := l.origin + [(t, l.phase)],
         waking := if t != LoopThread || l.calling then l.waking + {t} else l.waking)
    case Wake(t) => l.(counter := l.counter + 1, waking := l.waking - {t})
    case RequestQuit(t) => l.(quit := true, waking := if t != LoopThread then l.waking + {t} else l.waking)
    case Enter => l.(phase := Polling, quit := false)
    case PollReturns => l.(phase := Dispatching)
    case HandleWakeup => l.(counter := 0)
    case BeginCalling => l.(phase := Calling, calling := true)
    case Swap => l.(phase := Batch, batch := l.pending, pending := [], swaps := l.swaps + 1)
    case RunNext => l.(ran := l.ran + [l.batch[0]], batch := l.batch[1..], ranAt := l.ranAt + [l.swaps])
    case EndBatch => l.(phase := if l.quit then Idle else Polling, calling := false)
  }

  function Play<T>(l: Loop<T>, steps: seq<Step<T>>): Option<Loop<T>>
    decreases |steps|
  {
    if steps == [] then Some(l)
    else if Enabled(l, steps[0]) then Play(Apply(l, steps[0]), steps[1..])
    else None
  }

  // ---- exactly once, in order, in the next batch ----

  /** EXACTLY ONCE: what ran, then the unrun rest of the batch, then the pending list are all functors
      ever queued, in order. */
  ghost predicate ExactlyOnce<T>(l: Loop<T>) {
    && l.queued == l.ran + l.batch + l.pending
    && |l.queuedAt| == |l.origin| == |l.queued| && |l.ranAt| == |l.ran|
  }

  /** A functor runs in the batch taken next after it was queued: one queued by a running functor
      never runs in the same batch, and none waits for a second one. */
  ghost predicate NextBatch<T>(l: Loop<T>)
    requires ExactlyOnce(l)
  {
    && (forall i :: 0 <= i < |l.ran| ==> l.ranAt[i] == l.queuedAt[i] + 1)
    && (forall i :: |l.ran| <= i < |l.ran| + |l.batch| ==> l.queuedAt[i] + 1 == l.swaps)
    && (forall i :: |l.ran| + |l.batch| <= i < |l.queued| ==> l.queuedAt[i] == l.swaps)
  }

  /** The i-th functor was queued by the loop's thread outside `loop()`, which wakes nobody. */
  ghost predicate QueuedWhileIdle<T>(l: Loop<T>, i: nat)
    requires i < |l.origin|
  {
    l.origin[i] == (LoopThread, Idle)
  }

  /** NO LOST WAKEUP: outside dispatching, a pending functor means a positive counter or a thread on
      its way to increment it, except for functors the loop's thread queued outside the loop. */
  ghost predicate NoLostWakeup<T>(l: Loop<T>)
    requires ExactlyOnce(l)
  {
    l.phase != Dispatching && l.phase != Calling && l.counter == 0 && l.waking == {} ==>
      forall i :: |l.ran| + |l.batch| <= i < |l.queued| ==> QueuedWhileIdle(l, i)
  }

  ghost predicate Sound<T>(l: Loop<T>) {
    && ExactlyOnce(l) && NextBatch(l) && NoLostWakeup(l)
    && (l.calling <==> l.phase == Calling || l.phase == Batch)
    && (l.batch != [] ==> l.phase == Batch)
  }

  lemma PushKeepsSound<T>(l: Loop<T>, t: Thread, f: T)
    requires Sound(l) && Enabled(l, Push(t, f))
    ensures Sound(Apply(l, Push(t, f)))
  {
    var m := Apply(l, Push(t, f));
    assert m.ran + m.batch + m.pending == l.ran + l.batch + l.pending + [f];
    assert forall i :: 0 <= i < |l.queued| ==> m.queuedAt[i] == l.queuedAt[i] && m.origin[i] == l.origin[i];
    if m.phase != Dispatching && m.phase != Calling && m.counter == 0 && m.waking == {} {
      assert t == LoopThread && l.phase == Idle && l.waking == {} by {
        assert t in l.waking + {t};
      }
      forall i | |m.ran| + |m.batch| <= i < |m.queued| ensures QueuedWhileIdle(m, i) {
        if i < |l.queued| {
          assert QueuedWhileIdle(l, i);
        }
      }
    }
  }

  lemma WakeKeepsSound<T>(l: Loop<T>, t: Thread)
    requires Sound(l)
    ensures Enabled(l, Wake(t)) ==> Sound(Apply(l, Wake(t)))
    ensures Enabled(l, RequestQuit(t)) ==> Sound(Apply(l, RequestQuit(t)))
  {
    if Enabled(l, RequestQuit(t)) {
      var m := Apply(l, RequestQuit(t));
      assert m.waking == {} ==> l.waking == {};
      assert forall i :: 0 <= i < |l.queued| ==> QueuedWhileIdle(m, i) == QueuedWhileIdle(l, i);
    }
  }

  lemma LoopStepKeepsSound<T>(l: Loop<T>, s: Step<T>)
    requires Sound(l) && Enabled(l, s) && !s.Push? && !s.Wake? && !s.RequestQuit?
    ensures Sound(Apply(l, s))
  {
    var m := Apply(l, s);
    assert forall i :: 0 <= i < |l.queued| ==> QueuedWhileIdle(m, i) == QueuedWhileIdle(l, i);
    if s == RunNext {
      assert l.batch == [l.batch[0]] + l.batch[1..];
      assert m.ran + m.batch + m.pending == l.ran + l.batch + l.pending;
    } else if s == Swap {
      assert m.ran + m.batch + m.pending == l.ran + l.batch + l.pending;
    }
  }

  lemma StepKeepsSound<T>(l: Loop<T>, s: Step<T>)
    requires Sound(l) && Enabled(l, s)
    ensures Sound(Apply(l, s))
  {
    match s {
      case Push(t, f) => PushKeepsSound(l, t, f);
      case Wake(t) => WakeKeepsSound(l, t);
      case RequestQuit(t) => WakeKeepsSound(l, t);
      case _ => LoopStepKeepsSound(l, s);
    }
  }

  lemma {:induction false} PlayKeepsSound<T>(l: Loop<T>, steps: seq<Step<T>>)
    requires Sound(l) && Play(l, steps).Some?
    ensures Sound(Play(l, steps).value)
    decreases |steps|
  {
    hide Sound, Enabled, Apply;
    if steps != [] {
      StepKeepsSound(l, steps[0]);
      PlayKeepsSound(Apply(l, steps[0]), steps[1..]);
    }
  }

  /** TASK QUEUE, over every interleaving of any threads with the loop. */
  lemma TaskQueue<T>(steps: seq<Step<T>>)
    requires Play(NewLoop<T>(), steps).Some?
    ensures var l := Play(NewLoop<T>(), steps).value;
            && ExactlyOnce(l)
            && forall i :: 0 <= i < |l.ran| ==> l.ran[i] == l.queued[i] && l.ranAt[i] == l.queuedAt[i] + 1
  {
    PlayKeepsSound(NewLoop<T>(), steps);
    var l := Play(NewLoop<T>(), steps).value;
    assert l.queued[..|l.ran|] == l.ran;
    assert forall i :: 0 <= i < |l.ran| ==> l.ran[i] == l.queued[..|l.ran|][i];
  }

  /** WAKEUP, over every interleaving: a loop about to poll with functors pending is or will be woken,
      unless each of them was queued by its own thread outside the loop. */
  lemma PollWithPendingIsWoken<T>(steps: seq<Step<T>>)
    requires Play(NewLoop<T>(), steps).Some?
    ensures var l := Play(NewLoop<T>(), steps).value;
            l.phase == Polling && l.pending != [] ==>
              || l.counter > 0
              || l.waking != {}
              || (|l.pending| <= |l.origin| == |l.queued|
                  && forall i :: |l.queued| - |l.pending| <= i < |l.queued| ==> l.origin[i] == (LoopThread, Idle))
  {
    PlayKeepsSound(NewLoop<T>(), steps);
    var l := Play(NewLoop<T>(), steps).value;
    if l.phase == Polling && l.counter == 0 && l.waking == {} {
      forall i | |l.queued| - |l.pending| <= i < |l.queued| ensures l.origin[i] == (LoopThread, Idle) {
        assert QueuedWhileIdle(l, i);
      }
    }
  }

  /** The exception is real: a functor queued before `loop()` sits through the first poll unannounced. */
  lemma QueuedBeforeLoopIsNotAnnounced<T>(f: T)
    ensures var l := Play(NewLoop<T>(), [Push(LoopThread, f), Enter]);
            && l.Some? && l.value.phase == Polling && l.value.pending == [f]
            && l.value.counter == 0 && l.value.waking == {}
  {
    var steps := [Push(LoopThread, f), Enter];
    assert steps[1..] == [Enter] && steps[1..][1..] == [];
    var l := Apply(NewLoop<T>(), steps[0]);
    assert Play(l, [Enter]) == Some(Apply(l, Enter));
  }

  // ---- the signals, told from the steps alone ----

  /** Where the loop is, whether it has been told to quit since it was entered, how many wakeups came since
      they were last read, and who still owes one. */
  datatype Signals = Signals(phase: Phase, quit: bool, wakeups: nat, owing: set<Thread>)

  const SILENT: Signals := Signals(Idle, false, 0, {})

  function Signalled<T>(g: Signals, s: Step<T>): Signals {
    match s
    case Enter => g.(phase := Polling, quit := false)
    case Push(t, _) =>
      if t == LoopThread && g.phase != Calling && g.phase != Batch then g else g.(owing := g.owing + {t})
    case Wake(t) => g.(wakeups := g.wakeups + 1, owing := g.owing - {t})
    case RequestQuit(t) => if t == LoopThread then g.(quit := true) else g.(quit := true, owing := g.owing + {t})
    case PollReturns => g.(phase := Dispatching)
    case HandleWakeup => g.(wakeups := 0)
    case BeginCalling => g.(phase := Calling)
    case Swap => g.(phase := Batch)
    case RunNext => g
    case EndBatch => g.(phase := if g.quit then Idle else Polling)
  }

  function AllSignalled<T>(g: Signals, steps: seq<Step<T>>): Signals
    decreases |steps|
  {
    if steps == [] then g else AllSignalled(Signalled(g, steps[0]), steps[1..])
  }

  ghost predicate SignalsMatch<T>(l: Loop<T>, g: Signals) {
    && l.phase == g.phase && l.quit == g.quit && l.counter == g.wakeups && l.waking == g.owing
    && (l.calling <==> l.phase == Calling || l.phase == Batch)
  }

  lemma StepSignals<T>(l: Loop<T>, g: Signals, s: Step<T>)
    requires SignalsMatch(l, g) && Enabled(l, s)
    ensures SignalsMatch(Apply(l, s), Signalled(g, s))
  {
  }

  lemma {:induction false} RunSignals<T>(l: Loop<T>, g: Signals, steps: seq<Step<T>>)
    requires SignalsMatch(l, g) && Play(l, steps).Some?
    ensures SignalsMatch(Play(l, steps).value, AllSignalled(g, steps))
    decreases |steps|
  {
    hide SignalsMatch, Enabled, Apply, Signalled;
    if steps != [] {
      StepSignals(l, g, steps[0]);
      RunSignals(Apply(l, steps[0]), Signalled(g, steps[0]), steps[1..]);
    }
  }

  /** SIGNALS, over every interleaving: the counter is the number of wakeups since they were last read, a push
      owes one exactly from another thread or from a running functor, and the loop ends after a batch exactly
      when it was told to quit since it was entered. */
  lemma SignalsAreKept<T>(steps: seq<Step<T>>)
    requires Play(NewLoop<T>(), steps).Some?
    ensures SignalsMatch(Play(NewLoop<T>(), steps).value, AllSignalled(SILENT, steps))
  {
    hide Play, AllSignalled;
    RunSignals(NewLoop<T>(), SILENT, steps);
  }

  // ---- the loop object ----

  ghost predicate Reaches<T(!new)>(l: Loop<T>, m: Loop<T>) {
    exists steps :: Play(l, steps) == Some(m)
  }

  lemma ReachesItself<T(!new)>(l: Loop<T>)
    ensures Reaches(l, l)
  {
    var none: seq<Step<T>> := [];
    assert Play(l, none) == Some(l);
  }

  lemma ReachesNext<T(!new)>(l: Loop<T>, m: Loop<T>, s: Step<T>)
    requires Reaches(l, m) && Enabled(m, s)
    ensures Reaches(l, Apply(m, s))
  {
    var steps :| Play(l, steps) == Some(m);
    PlayAppend(l, steps, [s]);
    assert [s][1..] == [];
    assert Play(l, steps + [s]) == Some(Apply(m, s));
  }

  /** What is queued while a batch runs: by each functor itself and by other threads meanwhile, in any
      order. */
  function QueuedDuring<T>(batch: seq<T>, meanwhile: T -> seq<(Thread, T)>): seq<T> {
    if batch == [] then []
    else QueuedDuring(batch[..|batch| - 1], meanwhile) + Payloads(meanwhile(batch[|batch| - 1]))
  }

  function Payloads<T>(items: seq<(Thread, T)>): (fs: seq<T>)
    ensures |fs| == |items| && forall i :: 0 <= i < |items| ==> fs[i] == items[i].1
  {
    seq(|items|, i requires 0 <= i < |items| => items[i].1)
  }

  /** One turn of `loop()`: whether the wakeup channel was reported, what handlers, timers and other
      threads queue before the functors run, who calls `quit`, and what is queued while each functor runs. */
  datatype Round<!T> = Round(
    woken: bool,
    handled: seq<(Thread, T)>,
    quits: Option<Thread>,
    meanwhile: T -> seq<(Thread, T)>)

  /** None of these threads is between a push and its wakeup. */
  ghost predicate Free<T(!new)>(items: seq<(Thread, T)>, waking: set<Thread>) {
    forall item :: item in items ==> item.0 !in waking
  }

  ghost predicate RoundFree<T(!new)>(r: Round<T>, waking: set<Thread>) {
    && Free(r.handled, waking) && (r.quits.Some? ==> r.quits.value !in waking)
    && forall f :: Free(r.meanwhile(f), waking)
  }

  /** The functors run and those left pending after these rounds. */
  function AfterRounds<T>(pending: seq<T>, rounds: seq<Round<T>>): (seq<T>, seq<T>) {
    if rounds == [] then ([], pending)
    else
      var (ran, left) := AfterRounds(pending, rounds[..|rounds| - 1]);
      var r := rounds[|rounds| - 1];
      var batch := left + Payloads(r.handled);
      (ran + batch, QueuedDuring(batch, r.meanwhile))
  }

  /** The fields of the loop, with the model they stand for. Every method leaves a state the
      interleaved machine can reach. */
  class EventLoop<T(!new)> {
    var quit: bool
    var callingPendingFunctors: bool
    var pendingFunctors: seq<T>
    /** The eventfd behind `wakeup_fd_`. */
    ghost var model: Loop<T>

    ghost predicate Valid()
      reads this
    {
      && Sound(model)
      && model.pending == pendingFunctors && model.calling == callingPendingFunctors && model.quit == quit
    }

    constructor ()
      ensures Valid() && model == NewLoop<T>()
    {
      quit, callingPendingFunctors, pendingFunctors := false, false, [];
      model := NewLoop<T>();
    }

    /** The critical section of `queueInLoop`. */
    method PushFunctor(who: Thread, f: T)
      requires Valid() && Enabled(model, Push(who, f))
      modifies this
      ensures Valid() && model == Apply(old(model), Push(who, f))
    {
      StepKeepsSound(model, Push(who, f));
      pendingFunctors := pendingFunctors + [f];
      model := Apply(model, Push(who, f));
    }

    /** The increment `wakeup` intends. */
    method Wakeup(who: Thread)
      requires Valid() && Enabled(model, Wake(who))
      modifies this
      ensures Valid() && model == Apply(old(model), Wake(who))
    {
      StepKeepsSound(model, Wake(who));
      model := Apply(model, Wake(who));
    }

    method QueueInLoop(who: Thread, f: T)
      requires Valid() && Enabled(model, Push(who, f))
      modifies this
      ensures Valid() && Reaches(old(model), model)
      ensures pendingFunctors == old(pendingFunctors) + [f] && model.queued == old(model.queued) + [f]
      ensures model.waking == old(model.waking) && model.phase == old(model.phase)
      ensures model.batch == old(model.batch) && model.ran == old(model.ran) && model.swaps == old(model.swaps)
      ensures quit == old(quit)
      ensures model.counter == old(model.counter) + if who != LoopThread || callingPendingFunctors then 1 else 0
    {
      ReachesItself(model);
      ReachesNext(model, model, Push(who, f));
      PushFunctor(who, f);
      if who != LoopThread || callingPendingFunctors {
        ReachesNext(old(model), model, Wake(who));
        Wakeup(who);
      }
      assert model.waking == old(model.waking);
    }

    method StartLooping()
      requires Valid() && model.phase == Idle && LoopThread !in model.waking
      modifies this
      ensures Valid() && Reaches(old(model), model) && !quit && pendingFunctors == old(pendingFunctors)
      ensures model == old(model).(phase := Polling, quit := false)
    {
      ReachesItself(model);
      ReachesNext(model, model, Enter);
      StepKeepsSound(model, Enter);
      quit := false;
      model := Apply(model, Enter);
    }

    method OnPollReturns()
      requires Valid() && model.phase == Polling
      modifies this
      ensures Valid() && model == Apply(old(model), PollReturns)
    {
      StepKeepsSound(model, PollReturns);
      model := Apply(model, PollReturns);
    }

    method OnWakeup()
      requires Valid() && model.phase == Dispatching && LoopThread !in model.waking
      modifies this
      ensures Valid() && model == Apply(old(model), HandleWakeup)
    {
      StepKeepsSound(model, HandleWakeup);
      model := Apply(model, HandleWakeup);
    }

    method Quit(who: Thread)
      requires Valid() && Enabled(model, RequestQuit(who))
      modifies this
      ensures Valid() && Reaches(old(model), model) && quit
      ensures model == old(model).(quit := true, counter := model.counter)
      ensures who != LoopThread ==> model.counter == old(model.counter) + 1
    {
      ReachesItself(model);
      ReachesNext(model, model, RequestQuit(who));
      StepKeepsSound(model, RequestQuit(who));
      quit := true;
      model := Apply(model, RequestQuit(who));
      if who != LoopThread {
        ReachesNext(old(model), model, Wake(who));
        Wakeup(who);
        assert old(model).waking + {who} - {who} == old(model).waking;
      }
    }

    /** What these threads queue, in this order. */
    method QueueAll(items: seq<(Thread, T)>)
      requires Valid() && RunsUserCode(model.phase) && Free(items, model.waking)
      modifies this
      ensures Valid() && Reaches(old(model), model)
      ensures pendingFunctors == old(pendingFunctors) + Payloads(items) && quit == old(quit)
      ensures model.waking == old(model.waking) && model.phase == old(model.phase)
      ensures model.batch == old(model.batch) && model.ran == old(model.ran) && model.swaps == old(model.swaps)
    {
      hide Sound, Enabled, Apply, Reaches;
      ReachesItself(model);
      for i := 0 to |items|
        invariant Valid() && Reaches(old(model), model)
        invariant pendingFunctors == old(pendingFunctors) + Payloads(items[..i]) && quit == old(quit)
        invariant model.waking == old(model.waking) && model.phase == old(model.phase)
        invariant model.batch == old(model.batch) && model.ran == old(model.ran) && model.swaps == old(model.swaps)
      {
        ghost var before := model;
        MayPush(model, items[i].0, items[i].1);
        QueueInLoop(items[i].0, items[i].1);
        ReachesTransitive(old(model), before, model);
        assert Payloads(items[..i + 1]) == Payloads(items[..i]) + [items[i].1];
      }
      assert items[..|items|] == items;
    }

    /** The flag, then the swap under the lock. */
    method TakeBatch() returns (functors: seq<T>)
      requires Valid() && model.phase == Dispatching && LoopThread !in model.waking
      modifies this
      ensures Valid() && Reaches(old(model), model)
      ensures functors == old(pendingFunctors) == model.batch && pendingFunctors == []
      ensures model.phase == Batch && model.waking == old(model.waking)
      ensures model.ran == old(model.ran) && model.swaps == old(model.swaps) + 1 && quit == old(quit)
    {
      ReachesItself(model);
      StepKeepsSound(model, BeginCalling);
      ReachesNext(old(model), model, BeginCalling);
      callingPendingFunctors := true;
      model := Apply(model, BeginCalling);
      StepKeepsSound(model, Swap);
      ReachesNext(old(model), model, Swap);
      functors := pendingFunctors;
      pendingFunctors := [];
      model := Apply(model, Swap);
    }

    /** One functor of the batch begins, and functors are queued while it runs. */
    method RunFunctor(items: seq<(Thread, T)>)
      requires Valid() && model.phase == Batch && model.batch != []
      requires LoopThread !in model.waking && Free(items, model.waking)
      modifies this
      ensures Valid() && Reaches(old(model), model)
      ensures model.ran == old(model.ran) + [old(model.batch)[0]] && model.batch == old(model.batch)[1..]
      ensures pendingFunctors == old(pendingFunctors) + Payloads(items) && quit == old(quit)
      ensures model.phase == Batch && model.waking == old(model.waking) && model.swaps == old(model.swaps)
    {
      ReachesItself(model);
      StepKeepsSound(model, RunNext);
      ReachesNext(model, model, RunNext);
      model := Apply(model, RunNext);
      ghost var begun := model;
      QueueAll(items);
      ReachesTransitive(old(model), begun, model);
    }

    method FinishBatch()
      requires Valid() && model.phase == Batch && model.batch == [] && LoopThread !in model.waking
      modifies this
      ensures Valid() && Reaches(old(model), model)
      ensures model.phase == (if quit then Idle else Polling) && !callingPendingFunctors
      ensures pendingFunctors == old(pendingFunctors) && quit == old(quit) && model.waking == old(model.waking)
      ensures model.ran == old(model.ran) && model.swaps == old(model.swaps)
    {
      ReachesItself(model);
      StepKeepsSound(model, EndBatch);
      ReachesNext(model, model, EndBatch);
      callingPendingFunctors := false;
      model := Apply(model, EndBatch);
    }

    /** `doPendingFunctors`, with any threads queueing while each functor runs: exactly the functors
        pending at the swap run, in order; exactly those queued meanwhile are pending afterwards. */
    method DoPendingFunctors(meanwhile: T -> seq<(Thread, T)>)
      requires Valid() && model.phase == Dispatching && LoopThread !in model.waking
      requires forall f :: Free(meanwhile(f), model.waking)
      modifies this
      ensures Valid() && Reaches(old(model), model)
      ensures model.ran == old(model.ran) + old(pendingFunctors)
      ensures pendingFunctors == QueuedDuring(old(pendingFunctors), meanwhile)
      ensures model.phase == (if quit then Idle else Polling) && !callingPendingFunctors && quit == old(quit)
      ensures model.swaps == old(model.swaps) + 1 && model.waking == old(model.waking)
    {
      hide Sound, Apply, Enabled, Reaches, Free;
      var functors := TakeBatch();
      for i := 0 to |functors|
        invariant Valid() && Reaches(old(model), model) && quit == old(quit)
        invariant model.phase == Batch && model.waking == old(model.waking) && model.swaps == old(model.swaps) + 1
        invariant model.ran == old(model.ran) + functors[..i] && model.batch == functors[i..]
        invariant pendingFunctors == QueuedDuring(functors[..i], meanwhile)
      {
        ghost var before := model;
        RunFunctor(meanwhile(functors[i]));
        ReachesTransitive(old(model), before, model);
        assert functors[..i + 1] == functors[..i] + [functors[i]];
        assert functors[..i + 1][..i] == functors[..i];
      }
      assert functors[..|functors|] == functors;
      ghost var before := model;
      FinishBatch();
      ReachesTransitive(old(model), before, model);
    }

    /** One turn of the loop: what was pending and what was queued before the functors runs, in order. */
    method RunRound(r: Round<T>)
      requires Valid() && model.phase == Polling && LoopThread !in model.waking && RoundFree(r, model.waking)
      modifies this
      ensures Valid() && Reaches(old(model), model) && model.waking == old(model.waking)
      ensures model.ran == old(model.ran) + old(pendingFunctors) + Payloads(r.handled)
      ensures pendingFunctors == QueuedDuring(old(pendingFunctors) + Payloads(r.handled), r.meanwhile)
      ensures model.phase == (if quit then Idle else Polling) && quit == (old(quit) || r.quits.Some?)
    {
      Dispatch(r);
      hide Sound, Apply, Enabled, Reaches, Free;
      ghost var before := model;
      DoPendingFunctors(r.meanwhile);
      ReachesTransitive(old(model), before, model);
      assert old(model).ran + (old(pendingFunctors) + Payloads(r.handled))
          == old(model).ran + old(pendingFunctors) + Payloads(r.handled);
    }

    /** From the return of `poll` to the functors. */
    method Dispatch(r: Round<T>)
      requires Valid() && model.phase == Polling && LoopThread !in model.waking && RoundFree(r, model.waking)
      modifies this
      ensures Valid() && Reaches(old(model), model) && model.waking == old(model.waking)
      ensures model.phase == Dispatching && model.ran == old(model.ran)
      ensures pendingFunctors == old(pendingFunctors) + Payloads(r.handled)
      ensures quit == (old(quit) || r.quits.Some?)
    {
      ReachesItself(model);
      ReachesNext(model, model, PollReturns);
      OnPollReturns();
      if r.woken {
        ReachesNext(old(model), model, HandleWakeup);
        OnWakeup();
      }
      hide Sound, Apply, Reaches, Free;
      ghost var before := model;
      QueueAll(r.handled);
      ReachesTransitive(old(model), before, model);
      if r.quits.Some? {
        before := model;
        Quit(r.quits.value);
        ReachesTransitive(old(model), before, model);
      }
    }

    /** `loop()` for as many turns as are given, or until somebody calls `quit`. */
    method Run(rounds: seq<Round<T>>) returns (n: nat)
      requires Valid() && model.phase == Idle && LoopThread !in model.waking
      requires forall i :: 0 <= i < |rounds| ==> RoundFree(rounds[i], model.waking)
      modifies this
      ensures Valid() && Reaches(old(model), model) && model.waking == old(model.waking)
      ensures n <= |rounds| && (n < |rounds| ==> quit)
      ensures model.ran == old(model.ran) + AfterRounds(old(pendingFunctors), rounds[..n]).0
      ensures pendingFunctors == AfterRounds(old(pendingFunctors), rounds[..n]).1
    {
      hide Sound, Apply, Enabled, Reaches, RoundFree, AfterRounds;
      StartLooping();
      n := 0;
      NoRounds(pendingFunctors);
      assert rounds[..0] == [] && old(model).ran + [] == old(model).ran;
      while n < |rounds| && !quit
        invariant Valid() && Reaches(old(model), model) && model.waking == old(model.waking)
        invariant n <= |rounds| && model.phase == if quit then Idle else Polling
        invariant model.ran == old(model.ran) + AfterRounds(old(pendingFunctors), rounds[..n]).0
        invariant pendingFunctors == AfterRounds(old(pendingFunctors), rounds[..n]).1
      {
        OneMoreRound(old(model).ran, old(pendingFunctors), rounds[..n], rounds[n]);
        assert rounds[..n + 1] == rounds[..n] + [rounds[n]];
        ghost var before := model;
        RunRound(rounds[n]);
        ReachesTransitive(old(model), before, model);
        n := n + 1;
      }
    }
  }

  lemma NoRounds<T>(pending: seq<T>)
    ensures AfterRounds(pending, []) == ([], pending)
  {
  }

  lemma OneMoreRound<T>(start: seq<T>, pending: seq<T>, rounds: seq<Round<T>>, r: Round<T>)
    ensures var (ran, left) := AfterRounds(pending, rounds);
            && AfterRounds(pending, rounds + [r]).1 == QueuedDuring(left + Payloads(r.handled), r.meanwhile)
            && start + AfterRounds(pending, rounds + [r]).0 == start + ran + left + Payloads(r.handled)
  {
    assert (rounds + [r])[..|rounds|] == rounds;
    var (ran, left) := AfterRounds(pending, rounds);
    assert start + (ran + (left + Payloads(r.handled))) == start + ran + left + Payloads(r.handled);
  }

  lemma MayPush<T>(l: Loop<T>, who: Thread, f: T)
    requires who !in l.waking && RunsUserCode(l.phase)
    ensures Enabled(l, Push(who, f))
  {
  }

  /** A new loop: functors queued before it runs, then any turns. The object is in a state the interleaved
      machine reaches, and has run exactly the functors that were queued in time, in order. */
  method RunNewLoop<T(!new)>(before: seq<(Thread, T)>, rounds: seq<Round<T>>) returns (loop: EventLoop<T>, n: nat)
    ensures fresh(loop) && loop.Valid() && Reaches(NewLoop<T>(), loop.model)
    ensures n <= |rounds| && (n < |rounds| ==> loop.quit)
    ensures (loop.model.ran, loop.pendingFunctors) == AfterRounds(Payloads(before), rounds[..n])
  {
    loop := new EventLoop<T>();
    loop.QueueAll(before);
    ghost var begun := loop.model;
    assert loop.pendingFunctors == Payloads(before);
    n := loop.Run(rounds);
    ReachesTransitive(NewLoop<T>(), begun, loop.model);
    assert loop.model.ran == AfterRounds(Payloads(before), rounds[..n]).0;
  }

  lemma ReachesTransitive<T(!new)>(l: Loop<T>, m: Loop<T>, n: Loop<T>)
    requires Reaches(l, m) && Reaches(m, n)
    ensures Reaches(l, n)
  {
    var first :| Play(l, first) == Some(m);
    var second :| Play(m, second) == Some(n);
    PlayAppend(l, first, second);
    assert Play(l, first + second) == Some(n);
  }

  lemma {:induction false} PlayAppend<T>(l: Loop<T>, first: seq<Step<T>>, second: seq<Step<T>>)
    requires Play(l, first).Some?
    ensures Play(l, first + second) == Play(Play(l, first).value, second)
    decreases |first|
  {
    hide Enabled, Apply;
    if first == [] {
      assert first + second == second;
    } else {
      assert (first + second)[1..] == first[1..] + second;
      PlayAppend(Apply(l, first[0]), first[1..], second);
    }
  }
}
