/**
 The self-deleting observer of browser/after_startup_task_utils.cc, composed with the task
 gate it opens.  Observers are numbered in the order they were started; a deleted one keeps
 its number so that its history can be stated.

 An observer lives until the flush it began is over.  Observers run on the UI thread, so none
 is started or notified during the flush; other threads go on posting.
 */
module StartupObserver {
  import opened Wrappers
  import Gates = AfterStartupTasks

  datatype Contents = Contents(id: nat, hasMainFrame: bool, visible: bool)

  datatype Observer = Observer(
    live: bool,
    watched: Option<Contents>,
    delaySeconds: nat,
    timerPending: bool,   // the failsafe task is in the UI loop
    signals: nat)         // how often this observer has completed start-up

  datatype World = World(
    gate: Gates.Gate,
    observers: seq<Observer>,
    completing: Option<nat>)   // the observer inside OnStartupComplete

  const START := World(Gates.START, [], None)

  datatype Event =
    | Starts(browsers: seq<Option<Contents>>)     // active contents of every browser window
    | FrameSettles(i: nat, isMainFrame: bool)     // DidFinishLoad or DidFailLoad
    | ContentsDestroyed(i: nat)
    | TimerFires(i: nat)
    | GateMoves(e: Gates.Event)                   // any step of the gate, by any thread

  const SHORT_DELAY_SECONDS := 3
  const LONGER_DELAY_SECONDS := 3 * 60

  predicate Showing(b: Option<Contents>) {
    b.Some? && b.value.hasMainFrame && b.value.visible
  }

  /** The contents chosen by the loop over the browser list. */
  function Selected(bs: seq<Option<Contents>>): Option<Contents> {
    if bs == [] then None
    else if Showing(bs[0]) || |bs| == 1 then bs[0]
    else Selected(bs[1..])
  }

  /** The first visible page wins; without one, the last browser's contents are watched
      even though they are not visible. */
  lemma {:induction false} SelectedIsFirstShowingOrLast(bs: seq<Option<Contents>>)
    ensures forall k :: 0 <= k < |bs| && Showing(bs[k]) && (forall j :: 0 <= j < k ==> !Showing(bs[j]))
              ==> Selected(bs) == bs[k]
    ensures (forall j :: 0 <= j < |bs| ==> !Showing(bs[j]))
              ==> Selected(bs) == if bs == [] then None else bs[|bs| - 1]
  {
    if |bs| > 1 && !Showing(bs[0]) {
      SelectedIsFirstShowingOrLast(bs[1..]);
      forall k | 0 <= k < |bs| && Showing(bs[k]) && (forall j :: 0 <= j < k ==> !Showing(bs[j]))
        ensures Selected(bs) == bs[k]
      {
        assert forall j :: 0 <= j < k - 1 ==> bs[1..][j] == bs[j + 1];
        assert bs[1..][k - 1] == bs[k];
      }
      if forall j :: 0 <= j < |bs| ==> !Showing(bs[j]) {
        assert forall j :: 0 <= j < |bs| - 1 ==> bs[1..][j] == bs[j + 1];
      }
    }
  }

  function Started(bs: seq<Option<Contents>>): Observer {
    Observer(true, Selected(bs), if Selected(bs).Some? then LONGER_DELAY_SECONDS else SHORT_DELAY_SECONDS, true, 0)
  }

  /** Notifications reach only live observers, and only about contents they watch. */
  predicate Notified(w: World, i: nat) {
    i < |w.observers| && w.observers[i].live && w.observers[i].watched.Some?
  }

  /** `OnStartupComplete` begins: the flag is set. */
  function Signal(w: World, i: nat): World
    requires i < |w.observers|
  {
    World(Gates.Step(w.gate, Gates.SetsFlag),
          w.observers[i := w.observers[i].(signals := w.observers[i].signals + 1)],
          Some(i))
  }

  /** A step of the gate; after the flush the observer that began it is deleted. */
  function GateMoved(w: World, e: Gates.Event): World {
    var w' := w.(gate := Gates.Step(w.gate, e));
    if w.gate.flushing && !w'.gate.flushing && w.completing.Some? && w.completing.value < |w.observers| then
      var i := w.completing.value;
      w'.(observers := w.observers[i := w.observers[i].(live := false)], completing := None)
    else w'
  }

  /** The UI thread is free unless it is flushing the queue. */
  predicate OnUiThread(e: Event) { !e.GateMoves? }

  function Step(w: World, e: Event): World {
    if OnUiThread(e) && w.gate.flushing then w else
    match e
    case Starts(bs) => w.(observers := w.observers + [Started(bs)])
    case FrameSettles(i, isMainFrame) => if Notified(w, i) && isMainFrame then Signal(w, i) else w
    case ContentsDestroyed(i) => if Notified(w, i) then Signal(w, i) else w
    case TimerFires(i) =>
      if i < |w.observers| && w.observers[i].timerPending then
        var fired := w.(observers := w.observers[i := w.observers[i].(timerPending := false)]);
        // the callback is bound to a weak pointer
        if w.observers[i].live then Signal(fired, i) else fired
      else w
    case GateMoves(g) => GateMoved(w, g)
  }

  function Run(w: World, es: seq<Event>): World
    decreases es
  {
    if es == [] then w else Step(Run(w, es[..|es| - 1]), es[|es| - 1])
  }

  lemma RunSnoc(w: World, es: seq<Event>, e: Event)
    ensures Run(w, es + [e]) == Step(Run(w, es), e)
  {
    assert (es + [e])[..|es|] == es;
  }

  /** The calls of `StartMonitoringStartup` in a run. */
  function StartsIn(es: seq<Event>): nat {
    if es == [] then 0 else
    var before, e := es[..|es| - 1], es[|es| - 1];
    StartsIn(before) + if e.Starts? && !Run(START, before).gate.flushing then 1 else 0
  }

  /** The tasks posted in a run, in the order of the calls. */
  function Submitted(es: seq<Event>): seq<Gates.Task> {
    if es == [] then [] else
    var before, e := es[..|es| - 1], es[|es| - 1];
    Submitted(before) + if e.GateMoves? then Gates.SubmittedBy(Run(START, before).gate, e.e) else []
  }

  // ---------------------------------------------------------------- every run

  /** `signalling`: this observer began the flush that is under way. */
  ghost predicate ObserverOk(o: Observer, complete: bool, signalling: bool) {
    && o.signals == (if o.live && !signalling then 0 else 1)
    && (o.live && !signalling ==> o.timerPending)
    && (!o.live ==> complete && !signalling)
    && o.delaySeconds == (if o.watched.Some? then 180 else 3)
  }

  ghost predicate Inv(w: World) {
    && Gates.Inv(w.gate)
    && (w.completing.Some? ==> w.gate.flushing && w.completing.value < |w.observers|)
    && forall i :: 0 <= i < |w.observers| ==> ObserverOk(w.observers[i], w.gate.complete, w.completing == Some(i))
  }

  lemma GateMoveKeepsInv(w: World, e: Gates.Event)
    requires Inv(w)
    ensures Inv(GateMoved(w, e))
  {
    Gates.StepKeepsInv(w.gate, e);
    assert w.gate.complete ==> Gates.Step(w.gate, e).complete;
    assert w.gate.flushing && e != Gates.FlushEnds ==> Gates.Step(w.gate, e).flushing;
  }

  lemma SignalKeepsInv(w: World, i: nat, observers: seq<Observer>)
    requires Inv(w) && !w.gate.flushing && i < |w.observers| && w.observers[i].live
    requires observers == w.observers || observers == w.observers[i := w.observers[i].(timerPending := false)]
    ensures Inv(Signal(w.(observers := observers), i))
  {
    Gates.StepKeepsInv(w.gate, Gates.SetsFlag);
    assert ObserverOk(w.observers[i], w.gate.complete, false);
    var w' := Signal(w.(observers := observers), i);
    forall k | 0 <= k < |w'.observers|
      ensures ObserverOk(w'.observers[k], true, w'.completing == Some(k))
    {
      assert ObserverOk(w.observers[k], w.gate.complete, false);
    }
  }

  lemma StepKeepsInv(w: World, e: Event)
    requires Inv(w)
    ensures Inv(Step(w, e))
  {
    if e.GateMoves? {
      GateMoveKeepsInv(w, e.e);
    } else if w.gate.flushing || e.Starts? {
    } else if e.i < |w.observers| && w.observers[e.i].live {
      SignalKeepsInv(w, e.i, w.observers);
      SignalKeepsInv(w, e.i, w.observers[e.i := w.observers[e.i].(timerPending := false)]);
    }
  }

  /** Whatever the order of loads, failures, destructions, timeouts and completion signals
      from elsewhere, each `Start` makes one observer; it completes start-up exactly once, and
      dies when that is done; a failsafe timer is pending until then (three minutes with a page
      to watch, three seconds without), and it never dies before the flag is set (the check in
      its destructor). */
  lemma {:induction false} ObserverSignalsOnce(es: seq<Event>)
    ensures |Run(START, es).observers| == StartsIn(es)
    ensures Inv(Run(START, es))
  {
    if es != [] {
      ObserverSignalsOnce(es[..|es| - 1]);
      StepKeepsInv(Run(START, es[..|es| - 1]), es[|es| - 1]);
    }
  }

  /** Start-up always completes: if any observer was started, it is enough that the timers
      pending in the UI loop have fired. */
  lemma TimersSuffice(es: seq<Event>)
    requires forall o :: o in Run(START, es).observers ==> !o.timerPending
    ensures forall o :: o in Run(START, es).observers ==>
              o.signals == 1 && (o.live ==> Run(START, es).gate.flushing)
    ensures StartsIn(es) > 0 ==> Run(START, es).gate.complete
  {
    ObserverSignalsOnce(es);
    var w := Run(START, es);
    forall o | o in w.observers
      ensures o.signals == 1 && (o.live ==> w.gate.flushing) && w.gate.complete
    {
      var i :| 0 <= i < |w.observers| && w.observers[i] == o;
      assert ObserverOk(w.observers[i], w.gate.complete, w.completing == Some(i));
    }
    if StartsIn(es) > 0 {
      assert w.observers[0] in w.observers;
    }
  }

  /** The events that complete start-up: a main frame has loaded or failed, or the contents are
      gone, and a live observer watches them; or the timer of a live observer fires. */
  predicate Completing(w: World, e: Event) {
    match e
    case FrameSettles(i, isMainFrame) => isMainFrame && Notified(w, i)
    case ContentsDestroyed(i) => Notified(w, i)
    case TimerFires(i) => i < |w.observers| && w.observers[i].live && w.observers[i].timerPending
    case _ => false
  }

  /** In every run, outside a flush, such an event sets the flag, makes the observer signal for
      the first time and begins the flush after which it is deleted; other events of observers
      leave the gate and the signals alone. */
  lemma CompletesStartup(es: seq<Event>, e: Event)
    requires OnUiThread(e) && !Run(START, es).gate.flushing
    ensures var w, w' := Run(START, es), Step(Run(START, es), e);
      if Completing(w, e) then
        && w'.gate == w.gate.(complete := true, flushing := true, flushed := 0)
        && w'.completing == Some(e.i)
        && |w'.observers| == |w.observers| && w'.observers[e.i].signals == 1 && w'.observers[e.i].live
      else
        && w'.gate == w.gate && w'.completing == w.completing
        && forall k :: 0 <= k < |w.observers| ==>
             && k < |w'.observers|
             && w'.observers[k].signals == w.observers[k].signals && w'.observers[k].live == w.observers[k].live
  {
    ObserverSignalsOnce(es);
    var w := Run(START, es);
    if Completing(w, e) {
      assert ObserverOk(w.observers[e.i], w.gate.complete, false);
    }
  }

  /** The observers only ever complete the gate, so a run of the whole is a run of the gate
      with the same posts; what is proved of every run of the gate holds with any number of
      observers. */
  lemma {:induction false} GateRunOf(es: seq<Event>) returns (gs: seq<Gates.Event>)
    ensures Run(START, es).gate == Gates.Run(Gates.START, gs)
    ensures Submitted(es) == Gates.Submitted(Gates.START, gs)
    ensures forall g :: g in gs ==> g == Gates.SetsFlag || GateMoves(g) in es
  {
    gs := [];
    if es != [] {
      var before, e := es[..|es| - 1], es[|es| - 1];
      assert es == before + [e];
      gs := GateRunOf(before);
      var moved := GateMoveOf(Run(START, before), e);
      if moved.Some? {
        Gates.RunSnoc(Gates.START, gs, moved.value);
        Gates.SubmittedSnoc(Gates.START, gs, moved.value);
        gs := gs + [moved.value];
      }
    }
  }

  /** What a step does to the gate, if anything. */
  lemma GateMoveOf(w: World, e: Event) returns (g: Option<Gates.Event>)
    ensures g.None? ==> Step(w, e).gate == w.gate && !e.GateMoves?
    ensures g.Some? ==> Step(w, e).gate == Gates.Step(w.gate, g.value)
    ensures g.Some? ==> if e.GateMoves? then g.value == e.e else g.value == Gates.SetsFlag
  {
    g := if e.GateMoves? then Some(e.e) else if Step(w, e).gate == w.gate then None else Some(Gates.SetsFlag);
  }

  /** The safety of the gate, and the order of the UI thread's tasks, with any number of
      observers. */
  lemma ComposedGateIsSafe(es: seq<Event>)
    ensures var g := Run(START, es).gate;
      && Gates.InFlight(g) + Gates.Handed(g) == multiset(Submitted(es))
      && (!g.complete ==> g.handed == [])
      && (g.complete && !g.flushing ==> g.queue == [])
      && (forall h :: h in g.handed ==> h.runner == h.task.runner)
      && Gates.Line(g, Gates.UI_TASKS) == Gates.Chosen(Submitted(es), Gates.UI_TASKS)
  {
    var gs := GateRunOf(es);
    Gates.GateSafety(gs);
    Gates.UiPostsKeepOrder(gs, Gates.UI_TASKS);
  }

  // ---------------------------------------------------------------- one whole signal

  function Moves(gs: seq<Gates.Event>): (es: seq<Event>)
    ensures |es| == |gs| && forall i :: 0 <= i < |gs| ==> es[i] == GateMoves(gs[i])
  {
    seq(|gs|, i requires 0 <= i < |gs| => GateMoves(gs[i]))
  }

  /** What follows the signal: the rest of the flush, during which other threads run. */
  function Completed(w: World, others: seq<seq<Gates.Event>>, last: seq<Gates.Event>): World {
    Step(Run(w, Moves(Gates.Flushes(others) + last)), GateMoves(Gates.FlushEnds))
  }

  lemma MoveDuringFlush(w: World, e: Gates.Event)
    requires w.gate.flushing && e != Gates.FlushEnds
    ensures Step(w, GateMoves(e)) == w.(gate := Gates.Step(w.gate, e))
    ensures Gates.Step(w.gate, e).flushing
  {
  }

  /** Steps of the gate up to the end of the flush leave the observers alone. */
  lemma {:induction false} MovesDuringFlush(w: World, gs: seq<Gates.Event>)
    requires w.gate.flushing && Gates.FlushEnds !in gs
    ensures Run(w, Moves(gs)) == w.(gate := Gates.Run(w.gate, gs)) && Run(w, Moves(gs)).gate.flushing
    decreases gs
  {
    if gs != [] {
      var before, e := gs[..|gs| - 1], gs[|gs| - 1];
      assert gs == before + [e];
      MovesDuringFlush(w, before);
      MoveDuringFlush(Run(w, Moves(before)), e);
      assert Moves(gs) == Moves(before) + [GateMoves(e)];
      RunSnoc(w, Moves(before), GateMoves(e));
    }
  }

  lemma {:induction false} FlushesDoNotEnd(others: seq<seq<Gates.Event>>)
    requires forall k :: 0 <= k < |others| ==> Gates.AllFromOthers(others[k])
    ensures Gates.FlushEnds !in Gates.Flushes(others)
    decreases others
  {
    if others != [] {
      FlushesDoNotEnd(others[..|others| - 1]);
      assert Gates.AllFromOthers(others[|others| - 1]);
    }
  }

  /** From the signal to the observer's deletion: the whole flush of the gate `g`, and nothing
      else. */
  lemma SignalFlushesAndDeletes(w: World, g: Gates.Gate, i: nat, others: seq<seq<Gates.Event>>, last: seq<Gates.Event>)
    requires Gates.Inv(g) && !g.flushing && w.gate == Gates.Step(g, Gates.SetsFlag)
    requires w.completing == Some(i) && i < |w.observers|
    requires |others| == |g.queue| && Gates.AllFromOthers(last)
    requires forall k :: 0 <= k < |others| ==> Gates.AllFromOthers(others[k])
    ensures Completed(w, others, last)
         == World(Gates.Run(g, Gates.WholeFlush(others, last)), w.observers[i := w.observers[i].(live := false)], None)
  {
    var rest := Gates.Flushes(others) + last;
    assert w.gate.flushing;
    FlushesDoNotEnd(others);
    MovesDuringFlush(w, rest);
    RestCompletesFlush(g, others, last);
    EndDeletes(Run(w, Moves(rest)), i);
  }

  /** `w` after the whole flush, with the observer that signalled deleted. */
  function Ended(w: World, i: nat, others: seq<seq<Gates.Event>>, last: seq<Gates.Event>): World
    requires i < |w.observers|
  {
    var signalled := w.observers[i := w.observers[i].(signals := w.observers[i].signals + 1)];
    World(Gates.Run(w.gate, Gates.WholeFlush(others, last)), signalled[i := signalled[i].(live := false)], None)
  }

  lemma SignalEnds(w: World, i: nat, others: seq<seq<Gates.Event>>, last: seq<Gates.Event>)
    requires Gates.Inv(w.gate) && !w.gate.flushing && i < |w.observers|
    requires |others| == |w.gate.queue| && Gates.AllFromOthers(last)
    requires forall k :: 0 <= k < |others| ==> Gates.AllFromOthers(others[k])
    ensures Completed(Signal(w, i), others, last) == Ended(w, i, others, last)
  {
    SignalFlushesAndDeletes(Signal(w, i), w.gate, i, others, last);
  }

  lemma RestCompletesFlush(g: Gates.Gate, others: seq<seq<Gates.Event>>, last: seq<Gates.Event>)
    requires Gates.Inv(g) && !g.flushing && |others| == |g.queue| && Gates.AllFromOthers(last)
    requires forall k :: 0 <= k < |others| ==> Gates.AllFromOthers(others[k])
    ensures var g' := Gates.Run(Gates.Step(g, Gates.SetsFlag), Gates.Flushes(others) + last);
      Gates.Step(g', Gates.FlushEnds) == Gates.Run(g, Gates.WholeFlush(others, last))
    ensures !Gates.Run(g, Gates.WholeFlush(others, last)).flushing
  {
    Gates.FlushSplits(g, others, last);
    Gates.RunConcat(Gates.Step(g, Gates.SetsFlag), Gates.Flushes(others), last);
    Gates.FlushHandsOverQueue(g, others, last, iset{});
  }

  lemma EndDeletes(w: World, i: nat)
    requires w.gate.flushing && !Gates.Step(w.gate, Gates.FlushEnds).flushing
    requires w.completing == Some(i) && i < |w.observers|
    ensures Step(w, GateMoves(Gates.FlushEnds))
         == World(Gates.Step(w.gate, Gates.FlushEnds), w.observers[i := w.observers[i].(live := false)], None)
  {
  }

  // ---------------------------------------------------------------- the code, in place

  class StartupMonitor {
    const tasks: Gates.AfterStartupTaskUtils
    var observers: seq<Observer>

    function State(): World
      reads this, tasks
    {
      World(tasks.State(), observers, None)
    }

    constructor (tasks: Gates.AfterStartupTaskUtils)
      ensures this.tasks == tasks && observers == []
    {
      this.tasks := tasks;
      observers := [];
    }

    /** The loop over the browser list in `Start`. */
    static method SelectContents(browsers: seq<Option<Contents>>) returns (contents: Option<Contents>)
      ensures contents == Selected(browsers)
    {
      contents := None;
      var i := 0;
      while i < |browsers|
        invariant 0 <= i <= |browsers|
        invariant i < |browsers| ==> Selected(browsers[i..]) == Selected(browsers)
        invariant i == |browsers| ==> contents == Selected(browsers)
      {
        contents := browsers[i];
        if contents.Some? && contents.value.hasMainFrame && contents.value.visible {
          break;
        }
        i := i + 1;
      }
    }

    method StartMonitoringStartup(browsers: seq<Option<Contents>>)
      requires !tasks.flushing
      modifies this
      ensures State() == Step(old(State()), Starts(browsers))
      ensures |observers| == |old(observers)| + 1 && observers[..|old(observers)|] == old(observers)
      ensures var o := observers[|observers| - 1];
        && o.live && o.timerPending && o.signals == 0 && o.watched == Selected(browsers)
        && o.delaySeconds == if o.watched.Some? then 180 else 3
    {
      var delay := SHORT_DELAY_SECONDS;
      var contents := SelectContents(browsers);
      if contents.Some? {
        delay := LONGER_DELAY_SECONDS;
      }
      observers := observers + [Observer(true, contents, delay, true, 0)];
    }

    /** What other threads may do while an observer completes start-up. */
    ghost predicate Meanwhile(others: seq<seq<Gates.Event>>, last: seq<Gates.Event>)
      reads tasks
    {
      && |others| == |tasks.queue| && Gates.AllFromOthers(last)
      && forall k :: 0 <= k < |others| ==> Gates.AllFromOthers(others[k])
    }

    /** Completes start-up, and only then deletes the observer. */
    method OnStartupComplete(i: nat, others: seq<seq<Gates.Event>>, last: seq<Gates.Event>)
      requires Gates.Inv(tasks.State()) && !tasks.flushing && i < |observers| && observers[i].live
      requires Meanwhile(others, last)
      modifies this, tasks
      ensures State() == Ended(old(State()), i, others, last)
      ensures !tasks.flushing && tasks.complete && tasks.queue == []
      ensures |observers| == |old(observers)|
      ensures !observers[i].live && observers[i].signals == old(observers)[i].signals + 1
      ensures forall k :: 0 <= k < |observers| && k != i ==> observers[k] == old(observers)[k]
    {
      observers := observers[i := observers[i].(signals := observers[i].signals + 1)];
      tasks.SetBrowserStartupIsComplete(others, last);
      observers := observers[i := observers[i].(live := false)];
    }

    method DidFinishOrFailLoad(i: nat, hasParent: bool, others: seq<seq<Gates.Event>>, last: seq<Gates.Event>)
      requires Inv(State()) && !tasks.flushing && Notified(State(), i)
      requires Meanwhile(others, last)
      modifies this, tasks
      ensures hasParent ==> State() == Step(old(State()), FrameSettles(i, false)) == old(State())
      ensures !hasParent ==>
        State() == Completed(Step(old(State()), FrameSettles(i, true)), others, last)
      ensures |observers| == |old(observers)|
      ensures !hasParent ==> tasks.complete && tasks.queue == [] && !observers[i].live && observers[i].signals == 1
    {
      if !hasParent {
        SignalEnds(State(), i, others, last);
        OnStartupComplete(i, others, last);
      }
    }

    method WebContentsDestroyed(i: nat, others: seq<seq<Gates.Event>>, last: seq<Gates.Event>)
      requires Inv(State()) && !tasks.flushing && Notified(State(), i)
      requires Meanwhile(others, last)
      modifies this, tasks
      ensures State() == Completed(Step(old(State()), ContentsDestroyed(i)), others, last)
      ensures |observers| == |old(observers)|
      ensures tasks.complete && tasks.queue == [] && !observers[i].live && observers[i].signals == 1
    {
      SignalEnds(State(), i, others, last);
      OnStartupComplete(i, others, last);
    }

    /** The timer's callback does nothing once its observer is gone. */
    method OnFailsafeTimeout(i: nat, others: seq<seq<Gates.Event>>, last: seq<Gates.Event>)
      requires Inv(State()) && !tasks.flushing && i < |observers| && observers[i].timerPending
      requires Meanwhile(others, last)
      modifies this, tasks
      ensures !old(observers)[i].live ==> State() == Step(old(State()), TimerFires(i))
      ensures old(observers)[i].live ==>
        State() == Completed(Step(old(State()), TimerFires(i)), others, last)
      ensures |observers| == |old(observers)|
      ensures tasks.complete && !observers[i].live && !observers[i].timerPending && observers[i].signals == 1
    {
      assert ObserverOk(observers[i], tasks.complete, false);
      observers := observers[i := observers[i].(timerPending := false)];
      if observers[i].live {
        SignalEnds(State(), i, others, last);
        OnStartupComplete(i, others, last);
      }
    }
  }
}
