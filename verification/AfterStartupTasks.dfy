/**
 The gate of browser/after_startup_task_utils.cc.  Any thread may post a task for a
 destination runner.  Before start-up completes, tasks wait in a queue that only the UI
 thread touches; a post from another thread reaches that queue by hopping through the UI
 message loop, and the flag can be set while the hop is in flight.

 `Gate` is the whole state, `Step` is one atomic step of any thread, and `Run` is an
 arbitrary interleaving.  Completing start-up takes many steps: the flag is set, the queue is
 scheduled task by task, and only then is it cleared; other threads run in between.  A step
 that cannot happen in a state leaves it unchanged, so every list of steps is a run.
 */
module AfterStartupTasks {

  type RunnerId = nat

  datatype Thread = Ui | Other

  /** `AfterStartupTask`: a closure, the runner it is meant for, and the thread that calls
      `PostTask` with it. */
  datatype Task = Task(id: nat, runner: RunnerId, poster: Thread)

  /** One call of `PostTask` or `PostDelayedTask` on a destination runner. */
  datatype Handover = Handover(runner: RunnerId, task: Task)

  datatype Gate = Gate(
    complete: bool,
    queue: seq<Task>,              // g_after_startup_tasks
    flushing: bool,                // the UI thread is inside SetBrowserStartupIsComplete
    flushed: nat,                  // ... and has scheduled this many tasks of the queue
    sawComplete: multiset<Task>,   // posters that have read the flag as set but not acted yet
    sawPending: multiset<Task>,    // posters that have read the flag as clear but not hopped yet
    uiLoop: seq<Task>,             // QueueTask closures waiting in the UI message loop
    handed: seq<Handover>)

  datatype Event =
    | Posts(task: Task)        // PostTask; off the UI thread only up to its read of the flag
    | OtherHands(task: Task)   // ... its direct post, when it read the flag as set
    | OtherHops(task: Task)    // ... its hop to the UI thread, when it read the flag as clear
    | HopRuns                  // the UI loop runs the oldest QueueTask closure
    | SetsFlag                 // SetBrowserStartupIsComplete begins: the flag is set
    | FlushesOne               // ... its loop schedules the next task of the queue
    | FlushEnds                // ... and after the last one it clears the queue

  const START := Gate(false, [], false, 0, multiset{}, multiset{}, [], [])

  /** The tasks of the queue that have not been scheduled. */
  function Waiting(g: Gate): seq<Task> {
    if g.flushed <= |g.queue| then g.queue[g.flushed..] else []
  }

  /** The UI thread does nothing else while it flushes the queue. */
  predicate Enabled(g: Gate, e: Event) {
    match e
    case Posts(t) => t.poster.Other? || !g.flushing
    case OtherHands(t) => t in g.sawComplete
    case OtherHops(t) => t in g.sawPending
    case HopRuns => !g.flushing && g.uiLoop != []
    case SetsFlag => !g.flushing
    case FlushesOne => g.flushing && Waiting(g) != []
    case FlushEnds => g.flushing && Waiting(g) == []
  }

  function HandOver(g: Gate, t: Task): Gate {
    g.(handed := g.handed + [Handover(t.runner, t)])
  }

  /** `QueueTask` once it is on the UI thread. */
  function QueueOnUi(g: Gate, t: Task): Gate {
    if g.complete then HandOver(g, t) else g.(queue := g.queue + [t])
  }

  function Step(g: Gate, e: Event): Gate {
    if !Enabled(g, e) then g else
    match e
    case Posts(t) =>
      if t.poster.Ui? then QueueOnUi(g, t)
      else if g.complete then g.(sawComplete := g.sawComplete + multiset{t})
      else g.(sawPending := g.sawPending + multiset{t})
    case OtherHands(t) => HandOver(g.(sawComplete := g.sawComplete - multiset{t}), t)
    case OtherHops(t) =>
      g.(sawPending := g.sawPending - multiset{t}, uiLoop := g.uiLoop + [t])
    case HopRuns => QueueOnUi(g.(uiLoop := g.uiLoop[1..]), g.uiLoop[0])
    case SetsFlag => g.(complete := true, flushing := true, flushed := 0)
    case FlushesOne => HandOver(g.(flushed := g.flushed + 1), Waiting(g)[0])
    case FlushEnds => g.(flushing := false, flushed := 0, queue := [])
  }

  /** The state after all of `es`, the last one last. */
  function Run(g: Gate, es: seq<Event>): Gate
    decreases es
  {
    if es == [] then g else Step(Run(g, es[..|es| - 1]), es[|es| - 1])
  }

  // ---------------------------------------------------------------- observations

  function SubmittedBy(g: Gate, e: Event): seq<Task> {
    if e.Posts? && Enabled(g, e) then [e.task] else []
  }

  /** The tasks given to `PostTask` in a run, in the order of the calls. */
  function Submitted(g: Gate, es: seq<Event>): seq<Task>
    decreases es
  {
    if es == [] then []
    else Submitted(g, es[..|es| - 1]) + SubmittedBy(Run(g, es[..|es| - 1]), es[|es| - 1])
  }

  lemma RunSnoc(g: Gate, es: seq<Event>, e: Event)
    ensures Run(g, es + [e]) == Step(Run(g, es), e)
  {
    assert (es + [e])[..|es|] == es;
  }

  lemma RunTo(g: Gate, es: seq<Event>, i: nat)
    requires i < |es|
    ensures Run(g, es[..i + 1]) == Step(Run(g, es[..i]), es[i])
  {
    assert es[..i + 1][..i] == es[..i];
  }

  lemma SubmittedSnoc(g: Gate, es: seq<Event>, e: Event)
    ensures Submitted(g, es + [e]) == Submitted(g, es) + SubmittedBy(Run(g, es), e)
  {
    assert (es + [e])[..|es|] == es;
  }

  lemma {:induction false} RunConcat(g: Gate, es: seq<Event>, fs: seq<Event>)
    ensures Run(g, es + fs) == Run(Run(g, es), fs)
    decreases fs
  {
    if fs == [] {
      assert es + fs == es;
    } else {
      var n := |fs| - 1;
      assert es + fs == (es + fs[..n]) + [fs[n]];
      RunSnoc(g, es + fs[..n], fs[n]);
      RunConcat(g, es, fs[..n]);
    }
  }

  function TasksOf(hs: seq<Handover>): (ts: seq<Task>)
    ensures |ts| == |hs|
  {
    if hs == [] then [] else TasksOf(hs[..|hs| - 1]) + [hs[|hs| - 1].task]
  }

  /** Everything that has entered the gate and not left it. */
  function InFlight(g: Gate): multiset<Task> {
    g.sawComplete + g.sawPending + multiset(g.uiLoop) + multiset(Waiting(g))
  }

  function Handed(g: Gate): multiset<Task> {
    multiset(TasksOf(g.handed))
  }

  // ---------------------------------------------------------------- one step

  lemma TasksOfSnoc(hs: seq<Handover>, h: Handover)
    ensures TasksOf(hs + [h]) == TasksOf(hs) + [h.task]
  {
    assert (hs + [h])[..|hs|] == hs;
  }

  /** Safety: what holds after every step of every run. */
  ghost predicate Inv(g: Gate) {
    && (!g.complete ==> g.handed == [] && g.sawComplete == multiset{} && !g.flushing)
    && (g.complete && !g.flushing ==> g.queue == [])
    && (if g.flushing then g.flushed <= |g.queue| else g.flushed == 0)
    && (forall h :: h in g.handed ==> h.runner == h.task.runner)
  }

  lemma HandOverKeepsRunners(g: Gate, t: Task)
    requires forall h :: h in g.handed ==> h.runner == h.task.runner
    ensures forall h :: h in HandOver(g, t).handed ==> h.runner == h.task.runner
  {
  }

  lemma StepKeepsInv(g: Gate, e: Event)
    requires Inv(g)
    ensures Inv(Step(g, e))
  {
    if Enabled(g, e) {
      match e
      case Posts(t) => HandOverKeepsRunners(g, t);
      case OtherHands(t) => HandOverKeepsRunners(g, t);
      case HopRuns => HandOverKeepsRunners(g, g.uiLoop[0]);
      case FlushesOne => HandOverKeepsRunners(g, Waiting(g)[0]);
      case _ => assert Step(g, e).handed == g.handed;
    }
  }

  lemma HandOverAdds(g: Gate, t: Task)
    ensures InFlight(HandOver(g, t)) == InFlight(g)
    ensures Handed(HandOver(g, t)) == Handed(g) + multiset{t}
  {
    TasksOfSnoc(g.handed, Handover(t.runner, t));
  }

  /** A task that reaches the UI thread is queued or handed over. */
  lemma QueueOnUiAdds(g: Gate, t: Task)
    requires g.flushed == 0
    ensures InFlight(QueueOnUi(g, t)) + Handed(QueueOnUi(g, t))
         == InFlight(g) + Handed(g) + multiset{t}
  {
    if g.complete {
      HandOverAdds(g, t);
    } else {
      assert Waiting(QueueOnUi(g, t)) == Waiting(g) + [t];
    }
  }

  lemma HandsConserves(g: Gate, t: Task)
    requires t in g.sawComplete
    ensures InFlight(Step(g, OtherHands(t))) + Handed(Step(g, OtherHands(t))) == InFlight(g) + Handed(g)
  {
    SawCompleteLeaves(g, t);
    HandOverAdds(g.(sawComplete := g.sawComplete - multiset{t}), t);
  }

  lemma SawCompleteLeaves(g: Gate, t: Task)
    requires t in g.sawComplete
    ensures InFlight(g) == InFlight(g.(sawComplete := g.sawComplete - multiset{t})) + multiset{t}
  {
    assert g.sawComplete == (g.sawComplete - multiset{t}) + multiset{t};
  }

  lemma SawPendingLeaves(g: Gate, t: Task)
    requires t in g.sawPending
    ensures InFlight(g) == InFlight(g.(sawPending := g.sawPending - multiset{t})) + multiset{t}
  {
    assert g.sawPending == (g.sawPending - multiset{t}) + multiset{t};
  }

  lemma HopStaysInFlight(g: Gate, t: Task)
    requires t in g.sawPending
    ensures InFlight(Step(g, OtherHops(t))) == InFlight(g)
  {
    SawPendingLeaves(g, t);
    UiLoopGains(g.(sawPending := g.sawPending - multiset{t}), t);
  }

  lemma HopsConserves(g: Gate, t: Task)
    requires t in g.sawPending
    ensures InFlight(Step(g, OtherHops(t))) + Handed(Step(g, OtherHops(t))) == InFlight(g) + Handed(g)
  {
    HopStaysInFlight(g, t);
    assert Step(g, OtherHops(t)).handed == g.handed;
  }

  lemma UiLoopGains(g: Gate, t: Task)
    ensures InFlight(g.(uiLoop := g.uiLoop + [t])) == InFlight(g) + multiset{t}
  {
    assert multiset(g.uiLoop + [t]) == multiset(g.uiLoop) + multiset{t};
  }

  lemma HopRunsConserves(g: Gate)
    requires Inv(g) && Enabled(g, HopRuns)
    ensures InFlight(Step(g, HopRuns)) + Handed(Step(g, HopRuns)) == InFlight(g) + Handed(g)
  {
    var rest := g.(uiLoop := g.uiLoop[1..]);
    assert g.uiLoop == [g.uiLoop[0]] + rest.uiLoop;
    assert InFlight(g) == InFlight(rest) + multiset{g.uiLoop[0]};
    QueueOnUiAdds(rest, g.uiLoop[0]);
  }

  lemma FlushesOneConserves(g: Gate)
    requires Enabled(g, FlushesOne)
    ensures InFlight(Step(g, FlushesOne)) + Handed(Step(g, FlushesOne)) == InFlight(g) + Handed(g)
  {
    var t, next := Waiting(g)[0], g.(flushed := g.flushed + 1);
    assert Waiting(g) == [t] + Waiting(next);
    assert InFlight(g) == InFlight(next) + multiset{t};
    HandOverAdds(next, t);
  }

  lemma PostConserves(g: Gate, t: Task)
    requires Inv(g) && Enabled(g, Posts(t))
    ensures InFlight(Step(g, Posts(t))) + Handed(Step(g, Posts(t))) == InFlight(g) + Handed(g) + multiset{t}
  {
    if t.poster.Ui? {
      QueueOnUiAdds(g, t);
    }
  }

  /** No step loses or copies a task. */
  lemma StepConserves(g: Gate, e: Event)
    requires Inv(g)
    ensures InFlight(Step(g, e)) + Handed(Step(g, e))
         == InFlight(g) + Handed(g) + multiset(SubmittedBy(g, e))
  {
    if Enabled(g, e) {
      match e
      case Posts(t) => PostConserves(g, t);
      case OtherHands(t) => HandsConserves(g, t);
      case OtherHops(t) => HopsConserves(g, t);
      case HopRuns => HopRunsConserves(g);
      case FlushesOne => FlushesOneConserves(g);
      case SetsFlag => assert Waiting(Step(g, e)) == Waiting(g);
      case FlushEnds => assert Waiting(Step(g, e)) == Waiting(g);
    }
  }

  // ---------------------------------------------------------------- every run

  lemma {:induction false} RunKeepsInv(g: Gate, es: seq<Event>)
    requires Inv(g)
    ensures Inv(Run(g, es))
    decreases es
  {
    if es != [] {
      RunKeepsInv(g, es[..|es| - 1]);
      StepKeepsInv(Run(g, es[..|es| - 1]), es[|es| - 1]);
    }
  }

  lemma {:induction false} RunConserves(g: Gate, es: seq<Event>)
    requires Inv(g)
    ensures InFlight(Run(g, es)) + Handed(Run(g, es))
         == InFlight(g) + Handed(g) + multiset(Submitted(g, es))
    decreases es
  {
    if es != [] {
      var before := es[..|es| - 1];
      RunConserves(g, before);
      RunKeepsInv(g, before);
      StepConserves(Run(g, before), es[|es| - 1]);
    }
  }

  /** Every interleaving: the submitted tasks are exactly those in flight or waiting in the
      queue plus those handed over, nothing is handed over before the flag is set, every task
      goes to the runner it was posted for, and outside the flush a set flag means an empty
      queue. */
  lemma GateSafety(es: seq<Event>)
    ensures var g := Run(START, es);
      && InFlight(g) + Handed(g) == multiset(Submitted(START, es))
      && (!g.complete ==> g.handed == [])
      && (g.complete && !g.flushing ==> g.queue == [])
      && (forall h :: h in g.handed ==> h.runner == h.task.runner)
  {
    RunKeepsInv(START, es);
    RunConserves(START, es);
  }

  /** At most once, for every task, and exactly once when no poster, hop or flush is under way
      and the flag is set. */
  lemma ExactlyOnce(es: seq<Event>)
    ensures var g := Run(START, es);
      && Handed(g) <= multiset(Submitted(START, es))
      && (g.complete && !g.flushing && g.sawComplete == g.sawPending == multiset{} && g.uiLoop == []
          ==> Handed(g) == multiset(Submitted(START, es)))
  {
    GateSafety(es);
  }

  /** The flag is set exactly in the runs in which completion was signalled, however often. */
  lemma {:induction false} CompleteIffSignalled(g: Gate, es: seq<Event>)
    requires Inv(g)
    ensures Run(g, es).complete <==> g.complete || SetsFlag in es
    decreases es
  {
    if es != [] {
      var before, e := es[..|es| - 1], es[|es| - 1];
      CompleteIffSignalled(g, before);
      RunKeepsInv(g, before);
      StepCompletes(Run(g, before), e);
      assert es == before + [e];
    }
  }

  lemma StepCompletes(g: Gate, e: Event)
    requires Inv(g)
    ensures Step(g, e).complete <==> g.complete || e == SetsFlag
  {
  }

  // ---------------------------------------------------------------- draining

  /** What is still to do for the tasks that were on their way when the flag was set. */
  function Remaining(g: Gate): nat {
    2 * |g.sawPending| + |g.sawComplete| + |g.uiLoop| + if g.flushing then |Waiting(g)| + 1 else 0
  }

  /** The steps that finish posts already begun, and the flush. */
  predicate Finishes(e: Event) { e.OtherHands? || e.OtherHops? || e.HopRuns? || e.FlushesOne? || e.FlushEnds? }

  /** Draining cannot get stuck ... */
  lemma SomePostCanFinish(g: Gate) returns (e: Event)
    requires Remaining(g) > 0
    ensures Finishes(e) && Enabled(g, e)
  {
    if g.flushing {
      e := if Waiting(g) != [] then FlushesOne else FlushEnds;
    } else if |g.sawComplete| > 0 {
      var t :| t in g.sawComplete;
      e := OtherHands(t);
    } else if |g.sawPending| > 0 {
      var t :| t in g.sawPending;
      e := OtherHops(t);
    } else {
      e := HopRuns;
    }
  }

  /** ... and cannot go on for ever. */
  lemma FinishingShrinks(g: Gate, e: Event)
    requires Finishes(e) && Enabled(g, e)
    requires Inv(g) && g.complete
    ensures Remaining(Step(g, e)) == Remaining(g) - 1
    ensures Step(g, e).complete
  {
  }

  /** From any reachable state with the flag set, even in the middle of the flush, some
      continuation without new posts hands over everything that was on its way, each task
      exactly once. */
  lemma Drains(g: Gate) returns (es: seq<Event>)
    requires Inv(g) && g.complete
    ensures forall e :: e in es ==> Finishes(e)
    ensures Remaining(Run(g, es)) == 0 && Run(g, es).queue == []
    ensures Handed(Run(g, es)) == InFlight(g) + Handed(g)
  {
    es := [];
    while Remaining(Run(g, es)) > 0
      invariant forall e :: e in es ==> Finishes(e)
      invariant Inv(Run(g, es)) && Run(g, es).complete && Submitted(g, es) == []
      decreases Remaining(Run(g, es))
    {
      var e := SomePostCanFinish(Run(g, es));
      FinishingShrinks(Run(g, es), e);
      StepKeepsInv(Run(g, es), e);
      RunSnoc(g, es, e);
      SubmittedSnoc(g, es, e);
      es := es + [e];
    }
    RunConserves(g, es);
    NothingRemains(Run(g, es));
    assert InFlight(Run(g, es)) + Handed(Run(g, es)) == InFlight(g) + Handed(g) + multiset{};
    assert multiset{} + Handed(Run(g, es)) == Handed(Run(g, es));
  }

  lemma NothingRemains(g: Gate)
    requires Inv(g) && g.complete && Remaining(g) == 0
    ensures g.queue == [] && InFlight(g) == multiset{}
  {
    assert g.sawPending == multiset{} && g.sawComplete == multiset{} && g.uiLoop == [];
  }

  // ---------------------------------------------------------------- order

  /** The tasks of `only` in a list, in its order. */
  ghost function Chosen(ts: seq<Task>, only: iset<Task>): seq<Task> {
    if ts == [] then []
    else Chosen(ts[..|ts| - 1], only) + if ts[|ts| - 1] in only then [ts[|ts| - 1]] else []
  }

  lemma ChosenSnoc(ts: seq<Task>, t: Task, only: iset<Task>)
    ensures Chosen(ts + [t], only) == Chosen(ts, only) + if t in only then [t] else []
  {
    assert (ts + [t])[..|ts|] == ts;
  }

  lemma {:induction false} ChosenConcat(ts: seq<Task>, us: seq<Task>, only: iset<Task>)
    ensures Chosen(ts + us, only) == Chosen(ts, only) + Chosen(us, only)
    decreases us
  {
    if us == [] {
      assert ts + us == ts;
    } else {
      var before, u := us[..|us| - 1], us[|us| - 1];
      ChosenConcat(ts, before, only);
      assert us == before + [u];
      Regroup(ts, before, [u]);
      ChosenSnoc(ts + before, u, only);
      ChosenSnoc(before, u, only);
      Regroup(Chosen(ts, only), Chosen(before, only), if u in only then [u] else []);
    }
  }

  /** The tasks of `only` that have reached the UI thread's side of the gate: handed over, or
      waiting in the queue behind them. */
  ghost function Line(g: Gate, only: iset<Task>): seq<Task> {
    Chosen(TasksOf(g.handed), only) + Chosen(Waiting(g), only)
  }

  /** The task that a step brings to the queue or past it. */
  function ArrivesBy(g: Gate, e: Event): seq<Task> {
    if !Enabled(g, e) then []
    else if e.Posts? && e.task.poster.Ui? then [e.task]
    else if e.HopRuns? then [g.uiLoop[0]]
    else []
  }

  lemma QueueOnUiExtendsLine(g: Gate, t: Task, only: iset<Task>)
    requires Inv(g) && !g.flushing
    ensures Line(QueueOnUi(g, t), only) == Line(g, only) + Chosen([t], only)
  {
    if g.complete {
      LineMoves(g.handed, t, [], only);
      assert [t] + [] == [t];
      assert Waiting(g) == [] == Waiting(QueueOnUi(g, t));
    } else {
      ChosenConcat(g.queue, [t], only);
      assert Waiting(g) == g.queue && Waiting(QueueOnUi(g, t)) == g.queue + [t];
    }
  }

  lemma FlushesOneKeepsLine(g: Gate, only: iset<Task>)
    requires Enabled(g, FlushesOne)
    ensures Line(Step(g, FlushesOne), only) == Line(g, only)
  {
    var t, g' := Waiting(g)[0], Step(g, FlushesOne);
    FlushesOneMoves(g);
    LineMoves(g.handed, t, Waiting(g'), only);
  }

  lemma FlushesOneMoves(g: Gate)
    requires Enabled(g, FlushesOne)
    ensures var t, g' := Waiting(g)[0], Step(g, FlushesOne);
      Waiting(g) == [t] + Waiting(g') && g'.handed == g.handed + [Handover(t.runner, t)]
  {
  }

  lemma LineMoves(handed: seq<Handover>, t: Task, rest: seq<Task>, only: iset<Task>)
    ensures Chosen(TasksOf(handed + [Handover(t.runner, t)]), only) + Chosen(rest, only)
         == Chosen(TasksOf(handed), only) + Chosen([t] + rest, only)
  {
    TasksOfSnoc(handed, Handover(t.runner, t));
    ChosenConcat([t], rest, only);
    ChosenConcat(TasksOf(handed), [t], only);
  }

  /** Whatever step any thread takes, even during the flush, the line only grows at its end;
      only a direct post by another thread can jump it, and only with its own task. */
  lemma StepExtendsLine(g: Gate, e: Event, only: iset<Task>)
    requires Inv(g)
    requires e.OtherHands? ==> e.task !in only
    ensures Line(Step(g, e), only) == Line(g, only) + Chosen(ArrivesBy(g, e), only)
  {
    if !Enabled(g, e) {
    } else if e.Posts? && e.task.poster.Ui? {
      QueueOnUiExtendsLine(g, e.task, only);
    } else if e.HopRuns? {
      QueueOnUiExtendsLine(g.(uiLoop := g.uiLoop[1..]), g.uiLoop[0], only);
    } else if e.FlushesOne? {
      FlushesOneKeepsLine(g, only);
    } else {
      QuietStepKeepsLine(g, e, only);
    }
  }

  lemma QuietStepKeepsLine(g: Gate, e: Event, only: iset<Task>)
    requires Inv(g) && Enabled(g, e) && ArrivesBy(g, e) == [] && e != FlushesOne
    requires e.OtherHands? ==> e.task !in only
    ensures Line(Step(g, e), only) == Line(g, only)
  {
    assert Waiting(Step(g, e)) == Waiting(g);
    if e.OtherHands? {
      TasksOfSnoc(g.handed, Handover(e.task.runner, e.task));
      ChosenSnoc(TasksOf(g.handed), e.task, only);
    }
  }

  ghost const UI_TASKS: iset<Task> := iset t: Task | t.poster.Ui?

  /** Posts by other threads stay away from the UI thread's tasks. */
  ghost predicate OthersApart(g: Gate) {
    && (forall t :: t in g.sawComplete || t in g.sawPending ==> t.poster.Other?)
    && (forall t :: t in g.uiLoop ==> t.poster.Other?)
  }

  lemma {:induction false} RunKeepsApart(es: seq<Event>)
    ensures OthersApart(Run(START, es))
    decreases es
  {
    if es != [] {
      RunKeepsApart(es[..|es| - 1]);
      StepKeepsApart(Run(START, es[..|es| - 1]), es[|es| - 1]);
    }
  }

  lemma StepKeepsApart(g: Gate, e: Event)
    requires OthersApart(g)
    ensures OthersApart(Step(g, e))
  {
  }

  lemma ArrivalIsSubmission(g: Gate, e: Event, only: iset<Task>)
    requires OthersApart(g) && only <= UI_TASKS
    ensures Chosen(ArrivesBy(g, e), only) == Chosen(SubmittedBy(g, e), only)
  {
    if Enabled(g, e) && e.HopRuns? {
      assert g.uiLoop[0] in g.uiLoop;
      assert Chosen([g.uiLoop[0]], only) == Chosen([], only);
    } else if Enabled(g, e) && e.Posts? && e.task.poster.Other? {
      assert Chosen([e.task], only) == Chosen([], only);
    }
  }

  /** In every run, whatever other threads post meanwhile: any tasks posted on the UI thread,
      in particular all of them, leave the gate in posting order. */
  lemma {:induction false} UiPostsKeepOrder(es: seq<Event>, only: iset<Task>)
    requires only <= UI_TASKS
    ensures Line(Run(START, es), only) == Chosen(Submitted(START, es), only)
    decreases es
  {
    if es != [] {
      var before, e := es[..|es| - 1], es[|es| - 1];
      var g := Run(START, before);
      UiPostsKeepOrder(before, only);
      RunKeepsInv(START, before);
      RunKeepsApart(before);
      if Enabled(g, e) && e.OtherHands? {
        assert e.task.poster.Other?;
      }
      if Enabled(g, e) {
        StepExtendsLine(g, e, only);
      }
      ArrivalIsSubmission(g, e, only);
      ChosenConcat(Submitted(START, before), SubmittedBy(g, e), only);
    }
  }

  /** The tasks that have hopped to the UI thread in a run, in the order of their hops. */
  function Hopped(g: Gate, es: seq<Event>): seq<Task>
    decreases es
  {
    if es == [] then []
    else Hopped(g, es[..|es| - 1]) + HoppedBy(Run(g, es[..|es| - 1]), es[|es| - 1])
  }

  function HoppedBy(g: Gate, e: Event): seq<Task> {
    if e.OtherHops? && Enabled(g, e) then [e.task] else []
  }

  /** The line, and behind it what waits in the UI loop. */
  ghost function HopLine(g: Gate, only: iset<Task>): seq<Task> {
    Line(g, only) + Chosen(g.uiLoop, only)
  }

  lemma HopLineJoined(g: Gate, g': Gate, t: Task, only: iset<Task>)
    requires Line(g', only) == Line(g, only) && g'.uiLoop == g.uiLoop + [t]
    ensures HopLine(g', only) == HopLine(g, only) + Chosen([t], only)
  {
    ChosenConcat(g.uiLoop, [t], only);
    Regroup(Line(g, only), Chosen(g.uiLoop, only), Chosen([t], only));
  }

  lemma Regroup(a: seq<Task>, b: seq<Task>, c: seq<Task>)
    ensures a + b + c == a + (b + c)
  {
  }

  lemma HopLineMoved(g: Gate, g': Gate, t: Task, only: iset<Task>)
    requires Line(g', only) == Line(g, only) + Chosen([t], only) && g.uiLoop == [t] + g'.uiLoop
    ensures HopLine(g', only) == HopLine(g, only)
  {
    ChosenConcat([t], g'.uiLoop, only);
    Regroup(Line(g, only), Chosen([t], only), Chosen(g'.uiLoop, only));
  }

  lemma NotChosen(t: Task, only: iset<Task>)
    requires t !in only
    ensures Chosen([t], only) == []
  {
    assert [t] == [] + [t];
    ChosenSnoc([], t, only);
  }

  /** The UI loop gains what hops at its end and loses its first task when that runs. */
  lemma UiLoopMoves(g: Gate, e: Event)
    requires Enabled(g, e)
    ensures e.OtherHops? ==> Step(g, e).uiLoop == g.uiLoop + [e.task]
    ensures e.HopRuns? ==> g.uiLoop == [g.uiLoop[0]] + Step(g, e).uiLoop
    ensures !e.OtherHops? && !e.HopRuns? ==> Step(g, e).uiLoop == g.uiLoop
  {
  }

  lemma StepExtendsHopLine(g: Gate, e: Event, only: iset<Task>)
    requires Inv(g) && only !! UI_TASKS
    requires e.OtherHands? ==> e.task !in only
    ensures HopLine(Step(g, e), only) == HopLine(g, only) + Chosen(HoppedBy(g, e), only)
  {
    if !Enabled(g, e) {
    } else if e.OtherHops? {
      HopJoins(g, e.task, only);
    } else if e.HopRuns? {
      HopArrives(g, only);
    } else {
      OthersKeepHopLine(g, e, only);
    }
  }

  lemma HopJoins(g: Gate, t: Task, only: iset<Task>)
    requires Inv(g) && Enabled(g, OtherHops(t))
    ensures HopLine(Step(g, OtherHops(t)), only) == HopLine(g, only) + Chosen([t], only)
  {
    UiLoopMoves(g, OtherHops(t));
    QuietStepKeepsLine(g, OtherHops(t), only);
    HopLineJoined(g, Step(g, OtherHops(t)), t, only);
  }

  lemma HopArrives(g: Gate, only: iset<Task>)
    requires Inv(g) && Enabled(g, HopRuns)
    ensures HopLine(Step(g, HopRuns), only) == HopLine(g, only)
  {
    UiLoopMoves(g, HopRuns);
    StepExtendsLine(g, HopRuns, only);
    HopLineMoved(g, Step(g, HopRuns), g.uiLoop[0], only);
  }

  lemma OthersKeepHopLine(g: Gate, e: Event, only: iset<Task>)
    requires Inv(g) && Enabled(g, e) && only !! UI_TASKS
    requires !e.OtherHops? && !e.HopRuns? && (e.OtherHands? ==> e.task !in only)
    ensures HopLine(Step(g, e), only) == HopLine(g, only)
  {
    UiLoopMoves(g, e);
    StepExtendsLine(g, e, only);
    NothingArrives(g, e, only);
  }

  lemma NothingArrives(g: Gate, e: Event, only: iset<Task>)
    requires only !! UI_TASKS && !e.OtherHops? && !e.HopRuns?
    ensures Chosen(ArrivesBy(g, e), only) == []
  {
    if e.Posts? && e.task.poster.Ui? {
      assert e.task in UI_TASKS;
      NotChosen(e.task, only);
    }
  }

  /** In every run: tasks of other threads that hop, and are not also posted directly, leave
      the gate in the order of their hops, through the UI loop and the queue. */
  lemma {:induction false} HopsKeepOrder(es: seq<Event>, only: iset<Task>)
    requires only !! UI_TASKS
    requires forall t :: t in only ==> OtherHands(t) !in es
    ensures HopLine(Run(START, es), only) == Chosen(Hopped(START, es), only)
    decreases es
  {
    if es != [] {
      var before, e := es[..|es| - 1], es[|es| - 1];
      var g := Run(START, before);
      assert es == before + [e];
      HopsKeepOrder(before, only);
      RunKeepsInv(START, before);
      StepExtendsHopLine(g, e, only);
      ChosenConcat(Hopped(START, before), HoppedBy(g, e), only);
    }
  }

  /** In some run `t` is posted before `u`, both once, and handed over after it. */
  ghost predicate CanBeOvertaken(t: Task, u: Task) {
    exists es ::
      && Chosen(Submitted(START, es), iset{t, u}) == [t, u]
      && Chosen(TasksOf(Run(START, es).handed), iset{t, u}) == [u, t]
  }

  /** A task can be overtaken by another exactly when they are not both posted on the UI
      thread. */
  lemma CanBeOvertakenIff(t: Task, u: Task)
    requires t != u
    ensures CanBeOvertaken(t, u) <==> t.poster.Other? || u.poster.Other?
  {
    if t.poster.Other? {
      var es := HopIsOvertaken(t, u);
      ChosenBoth(t, u);
      assert CanBeOvertaken(t, u);
    } else if u.poster.Other? {
      var es := QueuedIsOvertaken(t, u);
      ChosenBoth(t, u);
      assert CanBeOvertaken(t, u);
    } else {
      forall es | Chosen(Submitted(START, es), iset{t, u}) == [t, u]
        ensures Chosen(TasksOf(Run(START, es).handed), iset{t, u}) != [u, t]
      {
        UiPostsKeepOrder(es, iset{t, u});
        assert (Chosen(TasksOf(Run(START, es).handed), iset{t, u})
                + Chosen(Waiting(Run(START, es)), iset{t, u}))[0] == t;
      }
    }
  }

  lemma ChosenBoth(t: Task, u: Task)
    ensures Chosen([t, u], iset{t, u}) == [t, u] && Chosen([u, t], iset{t, u}) == [u, t]
  {
    assert [t, u] == [] + [t] + [u] && [u, t] == [] + [u] + [t];
    ChosenSnoc([], t, iset{t, u});
    ChosenSnoc([] + [t], u, iset{t, u});
    ChosenSnoc([], u, iset{t, u});
    ChosenSnoc([] + [u], t, iset{t, u});
  }

  lemma TasksOfTwo(a: Handover, b: Handover)
    ensures TasksOf([a, b]) == [a.task, b.task]
  {
    TasksOfSnoc([], a);
    TasksOfSnoc([a], b);
  }

  /** A run longer by one step. */
  lemma Then(es: seq<Event>, e: Event) returns (longer: seq<Event>)
    ensures Run(START, longer) == Step(Run(START, es), e)
    ensures Submitted(START, longer) == Submitted(START, es) + SubmittedBy(Run(START, es), e)
  {
    longer := es + [e];
    RunSnoc(START, es, e);
    SubmittedSnoc(START, es, e);
  }

  /** The hop of `t` is in flight when start-up completes; `u`, from any thread, goes to its
      runner directly and is there first. */
  lemma HopIsOvertaken(t: Task, u: Task) returns (es: seq<Event>)
    requires t.poster.Other?
    ensures Submitted(START, es) == [t, u]
    ensures TasksOf(Run(START, es).handed) == [u, t]
  {
    es := HopInFlight(t);
    es := Then(es, SetsFlag);
    assert Run(START, es) == START.(uiLoop := [t], complete := true, flushing := true);
    assert Waiting(Run(START, es)) == [];
    es := Then(es, FlushEnds);
    assert Run(START, es) == START.(uiLoop := [t], complete := true);
    es := PostedDirectly(es, t, u);
    es := Then(es, HopRuns);
    TasksOfTwo(Handover(u.runner, u), Handover(t.runner, t));
  }

  lemma HopInFlight(t: Task) returns (es: seq<Event>)
    requires t.poster.Other?
    ensures Submitted(START, es) == [t] && Run(START, es) == START.(uiLoop := [t])
  {
    es := Then([], Posts(t));
    es := Then(es, OtherHops(t));
    assert multiset{t} - multiset{t} == multiset{};
  }

  lemma PostedDirectly(es: seq<Event>, t: Task, u: Task) returns (longer: seq<Event>)
    requires Submitted(START, es) == [t] && Run(START, es) == START.(uiLoop := [t], complete := true)
    ensures Submitted(START, longer) == [t, u]
    ensures Run(START, longer) == START.(uiLoop := [t], complete := true, handed := [Handover(u.runner, u)])
  {
    longer := Then(es, Posts(u));
    if u.poster.Other? {
      longer := Then(longer, OtherHands(u));
      assert multiset{u} - multiset{u} == multiset{};
    }
  }

  /** `t` waits in the queue when the flag is set; another thread posts `u` before the loop
      comes to `t`. */
  lemma QueuedIsOvertaken(t: Task, u: Task) returns (es: seq<Event>)
    requires t.poster.Ui? && u.poster.Other?
    ensures Submitted(START, es) == [t, u]
    ensures TasksOf(Run(START, es).handed) == [u, t]
  {
    es := Then([], Posts(t));
    es := Then(es, SetsFlag);
    assert Run(START, es) == START.(queue := [t], complete := true, flushing := true);
    es := Then(es, Posts(u));
    es := Then(es, OtherHands(u));
    assert Waiting(Run(START, es)) == [t];
    es := Then(es, FlushesOne);
    TasksOfTwo(Handover(u.runner, u), Handover(t.runner, t));
  }

  // ---------------------------------------------------------------- the flush

  predicate FromOthers(e: Event) {
    (e.Posts? && e.task.poster.Other?) || e.OtherHands? || e.OtherHops?
  }

  predicate AllFromOthers(es: seq<Event>) { forall i :: 0 <= i < |es| ==> FromOthers(es[i]) }

  /** What happens while the loop of the flush schedules its tasks, the k-th of them after
      other threads have taken the steps `others[k]`. */
  function Flushes(others: seq<seq<Event>>): seq<Event> {
    if others == [] then [] else Flushes(others[..|others| - 1]) + others[|others| - 1] + [FlushesOne]
  }

  /** All of `SetBrowserStartupIsComplete`; `last` is what other threads do before the queue
      is cleared. */
  function WholeFlush(others: seq<seq<Event>>, last: seq<Event>): seq<Event> {
    [SetsFlag] + Flushes(others) + last + [FlushEnds]
  }

  /** Steps of other threads leave the flush where it is and the line in order. */
  lemma {:induction false} OthersKeepLine(g: Gate, es: seq<Event>, only: iset<Task>)
    requires Inv(g) && AllFromOthers(es)
    requires forall e :: e in es && e.OtherHands? ==> e.task !in only
    ensures Inv(Run(g, es)) && Line(Run(g, es), only) == Line(g, only)
    ensures var g' := Run(g, es);
      g'.queue == g.queue && g'.flushing == g.flushing && g'.flushed == g.flushed && g'.complete == g.complete
    decreases es
  {
    if es != [] {
      var before, e := es[..|es| - 1], es[|es| - 1];
      assert es == before + [e];
      OthersKeepLine(g, before, only);
      OtherStepKeepsLine(Run(g, before), e, only);
    }
  }

  lemma OtherStepKeepsLine(g: Gate, e: Event, only: iset<Task>)
    requires Inv(g) && FromOthers(e) && (e.OtherHands? ==> e.task !in only)
    ensures Inv(Step(g, e)) && Line(Step(g, e), only) == Line(g, only)
    ensures var g' := Step(g, e);
      g'.queue == g.queue && g'.flushing == g.flushing && g'.flushed == g.flushed && g'.complete == g.complete
  {
    StepKeepsInv(g, e);
    if Enabled(g, e) {
      QuietStepKeepsLine(g, e, only);
    }
  }

  lemma {:induction false} FlushesKeepLine(g: Gate, others: seq<seq<Event>>, only: iset<Task>)
    requires Inv(g) && g.flushing && g.flushed == 0 && |others| <= |g.queue|
    requires forall k :: 0 <= k < |others| ==> AllFromOthers(others[k])
    requires forall k, e :: 0 <= k < |others| && e in others[k] && e.OtherHands? ==> e.task !in only
    ensures var g' := Run(g, Flushes(others));
      && Inv(g') && g'.flushing && g'.queue == g.queue && g'.flushed == |others|
      && Line(g', only) == Line(g, only)
    decreases others
  {
    if others != [] {
      var n := |others| - 1;
      var done := Run(g, Flushes(others[..n]));
      FlushesKeepLine(g, others[..n], only);
      OthersKeepLine(done, others[n], only);
      FlushesSnoc(g, others, n);
      assert others[..n + 1] == others;
      FlushesOneKeepsLine(Run(done, others[n]), only);
      StepKeepsInv(Run(done, others[n]), FlushesOne);
    }
  }

  /** The flush, with other threads running all the while: it schedules the queue in queue
      order, whatever they hand over in between, and leaves it empty. */
  lemma FlushHandsOverQueue(g: Gate, others: seq<seq<Event>>, last: seq<Event>, only: iset<Task>)
    requires Inv(g) && !g.flushing && |others| == |g.queue|
    requires forall k :: 0 <= k < |others| ==> AllFromOthers(others[k])
    requires AllFromOthers(last)
    requires forall k, e :: 0 <= k < |others| && e in others[k] && e.OtherHands? ==> e.task !in only
    requires forall e :: e in last && e.OtherHands? ==> e.task !in only
    ensures var g' := Run(g, WholeFlush(others, last));
      && Inv(g') && g'.complete && !g'.flushing && g'.queue == []
      && Chosen(TasksOf(g'.handed), only) == Chosen(TasksOf(g.handed), only) + Chosen(g.queue, only)
  {
    var s := Step(g, SetsFlag);
    assert Waiting(s) == g.queue;
    FlushSplits(g, others, last);
    FlushesKeepLine(s, others, only);
    OthersKeepLine(Run(s, Flushes(others)), last, only);
    var e := Run(Run(s, Flushes(others)), last);
    assert Waiting(e) == [] && Line(e, only) == Chosen(TasksOf(e.handed), only) + [];
  }

  lemma FlushesSnoc(g: Gate, others: seq<seq<Event>>, k: nat)
    requires k < |others|
    ensures Run(g, Flushes(others[..k + 1])) == Step(Run(Run(g, Flushes(others[..k])), others[k]), FlushesOne)
  {
    assert others[..k + 1][..k] == others[..k];
    RunConcat(g, Flushes(others[..k]), others[k]);
    RunSnoc(g, Flushes(others[..k]) + others[k], FlushesOne);
  }

  lemma FlushSplits(g: Gate, others: seq<seq<Event>>, last: seq<Event>)
    ensures Run(g, WholeFlush(others, last))
         == Step(Run(Run(Step(g, SetsFlag), Flushes(others)), last), FlushEnds)
  {
    RunSnoc(g, [], SetsFlag);
    assert [] + [SetsFlag] == [SetsFlag];
    RunConcat(g, [SetsFlag], Flushes(others));
    RunConcat(g, [SetsFlag] + Flushes(others), last);
    RunSnoc(g, [SetsFlag] + Flushes(others) + last, FlushEnds);
  }

  // ---------------------------------------------------------------- the code, in place

  class AfterStartupTaskUtils {
    var complete: bool
    var queue: seq<Task>
    var flushing: bool
    var flushed: nat
    var sawComplete: multiset<Task>
    var sawPending: multiset<Task>
    var uiLoop: seq<Task>
    var handed: seq<Handover>

    function State(): Gate
      reads this
    {
      Gate(complete, queue, flushing, flushed, sawComplete, sawPending, uiLoop, handed)
    }

    constructor ()
      ensures State() == START
    {
      complete, queue, uiLoop, handed := false, [], [], [];
      flushing, flushed, sawComplete, sawPending := false, 0, multiset{}, multiset{};
    }

    method ScheduleTask(t: Task)
      modifies this`handed
      ensures State() == HandOver(old(State()), t)
    {
      handed := handed + [Handover(t.runner, t)];
    }

    /** On the UI thread the flag is read again; elsewhere the task hops. */
    method QueueTask(t: Task, onUi: bool)
      modifies this
      ensures State() == if onUi then QueueOnUi(old(State()), t)
                         else old(State()).(uiLoop := old(uiLoop) + [t])
    {
      if !onUi {
        uiLoop := uiLoop + [t];
        return;
      }
      if complete {
        ScheduleTask(t);
        return;
      }
      queue := queue + [t];
    }

    /** Other threads take any steps they can. */
    method OthersRun(es: seq<Event>)
      requires Inv(State()) && AllFromOthers(es)
      modifies this
      ensures State() == Run(old(State()), es)
      ensures Inv(State()) && queue == old(queue) && flushing == old(flushing) && flushed == old(flushed)
    {
      ghost var start := State();
      var i := 0;
      while i < |es|
        invariant 0 <= i <= |es| && State() == Run(start, es[..i])
      {
        RunTo(start, es, i);
        OtherStep(es[i]);
        i := i + 1;
      }
      assert es[..|es|] == es;
      OthersKeepLine(start, es, iset{});
    }

    method OtherStep(e: Event)
      requires FromOthers(e)
      modifies this
      ensures State() == Step(old(State()), e)
    {
      match e
      case Posts(t) =>
        var saw := PostTaskReadsFlag(t);
      case OtherHands(t) =>
        if t in sawComplete {
          PostTaskActs(t, true);
        }
      case OtherHops(t) =>
        if t in sawPending {
          PostTaskActs(t, false);
        }
    }

    method SetFlag()
      requires Inv(State()) && !flushing
      modifies this`complete, this`flushing, this`flushed
      ensures State() == Step(old(State()), SetsFlag)
      ensures Inv(State()) && flushing && flushed == 0
    {
      StepKeepsInv(State(), SetsFlag);
      complete, flushing, flushed := true, true, 0;
    }

    method ClearQueue()
      requires Inv(State()) && flushing && flushed == |queue|
      modifies this`queue, this`flushing, this`flushed
      ensures State() == Step(old(State()), FlushEnds)
      ensures Inv(State()) && complete && !flushing && queue == []
    {
      StepKeepsInv(State(), FlushEnds);
      queue, flushing, flushed := [], false, 0;
    }

    /** One round of the loop of the flush. */
    method FlushOne()
      requires Inv(State()) && flushing && flushed < |queue|
      modifies this`flushed, this`handed
      ensures State() == Step(old(State()), FlushesOne)
      ensures Inv(State()) && flushed == old(flushed) + 1
    {
      StepKeepsInv(State(), FlushesOne);
      var t := queue[flushed];
      flushed := flushed + 1;
      ScheduleTask(t);
    }

    /** The loop of the flush. */
    method FlushQueue(others: seq<seq<Event>>)
      requires Inv(State()) && flushing && flushed == 0 && |others| == |queue|
      requires forall k :: 0 <= k < |others| ==> AllFromOthers(others[k])
      modifies this
      ensures State() == Run(old(State()), Flushes(others))
      ensures Inv(State()) && queue == old(queue) && flushing && flushed == |queue|
    {
      ghost var start := State();
      while flushed < |queue|
        invariant flushed <= |queue| && queue == old(queue) && flushing && Inv(State())
        invariant State() == Run(start, Flushes(others[..flushed]))
        decreases |queue| - flushed
      {
        FlushesSnoc(start, others, flushed);
        OthersRun(others[flushed]);
        FlushOne();
      }
      assert others[..|others|] == others;
    }

    /** The flag is set first, so other threads post directly while the queue is flushed. */
    method SetBrowserStartupIsComplete(others: seq<seq<Event>>, last: seq<Event>)
      requires Inv(State()) && !flushing && |others| == |queue|
      requires forall k :: 0 <= k < |others| ==> AllFromOthers(others[k])
      requires AllFromOthers(last)
      modifies this
      ensures State() == Run(old(State()), WholeFlush(others, last))
      ensures Inv(State()) && complete && !flushing && queue == []
    {
      FlushSplits(State(), others, last);
      SetFlag();
      FlushQueue(others);
      OthersRun(last);
      ClearQueue();
    }

    /** `PostTask` on the UI thread; other threads cannot change what it sees. */
    method PostTaskOnUi(t: Task)
      requires t.poster.Ui? && !flushing
      modifies this
      ensures State() == Step(old(State()), Posts(t))
    {
      if complete {
        handed := handed + [Handover(t.runner, t)];
        return;
      }
      QueueTask(t, true);
    }

    /** `PostTask` elsewhere: its read of the flag, after which other threads may run. */
    method PostTaskReadsFlag(t: Task) returns (saw: bool)
      requires t.poster.Other?
      modifies this
      ensures State() == Step(old(State()), Posts(t))
      ensures saw ==> t in sawComplete
      ensures !saw ==> t in sawPending
    {
      saw := complete;
      if saw {
        sawComplete := sawComplete + multiset{t};
      } else {
        sawPending := sawPending + multiset{t};
      }
    }

    /** `PostTask` elsewhere: what it does with the value it read. */
    method PostTaskActs(t: Task, saw: bool)
      requires if saw then t in sawComplete else t in sawPending
      modifies this
      ensures State() == Step(old(State()), if saw then OtherHands(t) else OtherHops(t))
      ensures saw ==> handed == old(handed) + [Handover(t.runner, t)] && uiLoop == old(uiLoop)
      ensures !saw ==> uiLoop == old(uiLoop) + [t] && handed == old(handed)
    {
      if saw {
        sawComplete := sawComplete - multiset{t};
        handed := handed + [Handover(t.runner, t)];
      } else {
        sawPending := sawPending - multiset{t};
        QueueTask(t, false);
      }
    }

    /** One turn of the UI message loop. */
    method RunUiLoopOnce()
      requires !flushing
      modifies this
      ensures State() == Step(old(State()), HopRuns)
    {
      if uiLoop != [] {
        var t := uiLoop[0];
        uiLoop := uiLoop[1..];
        QueueTask(t, true);
      }
    }
  }
}
