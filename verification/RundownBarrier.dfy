/**
 The end-of-session barrier of browser/browser_process_impl.cc: `RundownTaskCounter` counts
 sentinel tasks posted on the runners that persist data, and `EndSession` waits for the
 count to reach zero.

 The sequenced runners are one log of everything ever posted to any of them.  A runner
 starts an item only when all earlier items of the same runner are done, so the log's order
 restricted to a runner is that runner's order; different runners are independent.
 */
module RundownBarrier {

  type RunnerId = nat

  datatype Item = Work(id: nat) | Rundown

  /** `owes`: the decrement made the count zero and `Signal` has not been called yet. */
  datatype Status = Queued | Running | Decremented(owes: bool) | Done

  datatype Entry = Entry(runner: RunnerId, item: Item, status: Status)

  /** Where the thread that owns the counter is. */
  datatype Phase =
    | Posting
    | Incremented(runner: RunnerId)   // inside Post, after the increment
    | Dropped(owes: bool)             // inside TimedWait, after its atomic decrement
    | Waiting
    | Returned(ok: bool)
    | Released

  datatype System = System(
    count: int,           // count_, which starts at one
    signals: nat,         // how often the manual-reset event was signalled
    refs: int,            // references to the counter
    biased: bool,         // the excess count has not been dropped yet
    phase: Phase,
    entries: seq<Entry>)

  const START := System(1, 0, 1, true, Posting, [])

  datatype Event =
    | Posts(runner: RunnerId, work: nat)  // any thread gives ordinary work to a runner
    | Begins(k: nat)                      // a runner starts item k
    | Decrements(k: nat)                  // ... a rundown task decrements the count
    | Signals(k: nat)                     // ... and signals if that made it zero
    | Ends(k: nat)                        // ... the item returns and its closure is destroyed
    | Increments(runner: RunnerId)        // RundownTaskCounter::Post: the increment
    | PostsRundown                        // ... and the post, which binds a reference
    | DropsExcess                         // TimedWait: the atomic decrement
    | OwnerSignals                        // ... its signal, if that made the count zero
    | StartsWait                          // ... the wait on the event
    | WaitReturns(ok: bool)               // ... which ends signalled, or timed out
    | ReleasesCounter                     // EndSession returns and drops its reference

  /** The steps of the runners and of other threads. */
  predicate FromOutside(e: Event) { e.Posts? || e.Begins? || e.Decrements? || e.Signals? || e.Ends? }

  predicate AllFromOutside(es: seq<Event>) { forall i :: 0 <= i < |es| ==> FromOutside(es[i]) }

  predicate Ready(entries: seq<Entry>, k: nat) {
    && k < |entries|
    && entries[k].status == Queued
    && forall j :: 0 <= j < k && entries[j].runner == entries[k].runner ==> entries[j].status == Done
  }

  /** An item returns when its work is done: a rundown task after its signal, if it owes one. */
  predicate Returning(e: Entry) {
    e.status == if e.item == Rundown then Decremented(false) else Running
  }

  predicate Enabled(s: System, e: Event) {
    match e
    case Posts(_, _) => true
    case Begins(k) => Ready(s.entries, k)
    case Decrements(k) => k < |s.entries| && s.entries[k].item == Rundown && s.entries[k].status == Running
    case Signals(k) => k < |s.entries| && s.entries[k].status == Decremented(true)
    case Ends(k) => k < |s.entries| && Returning(s.entries[k])
    case Increments(_) => s.phase == Posting
    case PostsRundown => s.phase.Incremented?
    case DropsExcess => s.phase == Posting
    case OwnerSignals => s.phase == Dropped(true)
    case StartsWait => s.phase == Dropped(false)
    case WaitReturns(ok) => s.phase == Waiting && (ok ==> s.signals > 0)
    case ReleasesCounter => s.phase == Posting || s.phase.Returned?
  }

  function WithStatus(entries: seq<Entry>, k: nat, status: Status): seq<Entry>
    requires k < |entries|
  {
    entries[k := entries[k].(status := status)]
  }

  function Step(s: System, e: Event): System {
    if !Enabled(s, e) then s else
    match e
    case Posts(r, w) => s.(entries := s.entries + [Entry(r, Work(w), Queued)])
    case Begins(k) => s.(entries := WithStatus(s.entries, k, Running))
    case Decrements(k) =>
      s.(count := s.count - 1, entries := WithStatus(s.entries, k, Decremented(s.count - 1 == 0)))
    case Signals(k) => s.(signals := s.signals + 1, entries := WithStatus(s.entries, k, Decremented(false)))
    case Ends(k) =>
      s.(refs := if s.entries[k].item == Rundown then s.refs - 1 else s.refs,
         entries := WithStatus(s.entries, k, Done))
    case Increments(r) => s.(count := s.count + 1, phase := Incremented(r))
    case PostsRundown =>
      s.(refs := s.refs + 1, phase := Posting, entries := s.entries + [Entry(s.phase.runner, Rundown, Queued)])
    case DropsExcess => s.(count := s.count - 1, biased := false, phase := Dropped(s.count - 1 == 0))
    case OwnerSignals => s.(signals := s.signals + 1, phase := Dropped(false))
    case StartsWait => s.(phase := Waiting)
    case WaitReturns(ok) => s.(phase := Returned(ok))
    case ReleasesCounter => s.(phase := Released, refs := s.refs - 1)
  }

  function Run(s: System, es: seq<Event>): System
    decreases es
  {
    if es == [] then s else Step(Run(s, es[..|es| - 1]), es[|es| - 1])
  }

  lemma RunSnoc(s: System, es: seq<Event>, e: Event)
    ensures Run(s, es + [e]) == Step(Run(s, es), e)
  {
    assert (es + [e])[..|es|] == es;
  }

  // ---------------------------------------------------------------- counting rundown tasks

  datatype Property =
    | Uncounted     // has not decremented the count yet
    | Owing         // has still to signal
    | Unfinished    // its closure, which holds a reference, exists

  predicate Has(e: Entry, p: Property) {
    match p
    case Uncounted => e.item == Rundown && e.status in {Queued, Running}
    case Owing => e.status == Decremented(true)
    case Unfinished => e.item == Rundown && e.status != Done
  }

  function Count(entries: seq<Entry>, p: Property): nat {
    if entries == [] then 0
    else Count(entries[..|entries| - 1], p) + if Has(entries[|entries| - 1], p) then 1 else 0
  }

  lemma CountSnoc(entries: seq<Entry>, e: Entry, p: Property)
    ensures Count(entries + [e], p) == Count(entries, p) + if Has(e, p) then 1 else 0
  {
    assert (entries + [e])[..|entries|] == entries;
  }

  lemma {:induction false} CountUpdate(entries: seq<Entry>, k: nat, e: Entry, p: Property)
    requires k < |entries|
    ensures Count(entries[k := e], p)
         == Count(entries, p) - (if Has(entries[k], p) then 1 else 0) + (if Has(e, p) then 1 else 0)
  {
    var n := |entries| - 1;
    if k == n {
      assert entries[k := e] == entries[..n] + [e];
      CountSnoc(entries[..n], e, p);
    } else {
      assert entries[k := e][..n] == entries[..n][k := e];
      CountUpdate(entries[..n], k, e, p);
    }
  }

  ghost predicate NoneHas(entries: seq<Entry>, p: Property) {
    forall k :: 0 <= k < |entries| ==> !Has(entries[k], p)
  }

  lemma {:induction false} CountZero(entries: seq<Entry>, p: Property)
    ensures Count(entries, p) == 0 <==> NoneHas(entries, p)
  {
    if entries != [] {
      CountZero(entries[..|entries| - 1], p);
      assert forall k :: 0 <= k < |entries| - 1 ==> entries[..|entries| - 1][k] == entries[k];
    }
  }

  // ---------------------------------------------------------------- the invariant

  /** What the owner adds to the count: one until it drops it, and one more between the
      increment for a task and its post. */
  function Excess(s: System): nat {
    (if s.biased then 1 else 0) + (if s.phase.Incremented? then 1 else 0)
  }

  /** Calls of `Signal` that are due. */
  function Owed(s: System): nat {
    Count(s.entries, Owing) + if s.phase == Dropped(true) then 1 else 0
  }

  /** A runner completes its items in the order they were given to it. */
  ghost predicate Fifo(entries: seq<Entry>) {
    forall j, k :: 0 <= j < k < |entries| && entries[j].runner == entries[k].runner ==>
      entries[k].status != Queued ==> entries[j].status == Done
  }

  ghost predicate OnlyTasksDecrement(entries: seq<Entry>) {
    forall k :: 0 <= k < |entries| && entries[k].status.Decremented? ==> entries[k].item == Rundown
  }

  ghost predicate Inv(s: System) {
    && s.count == Count(s.entries, Uncounted) + Excess(s)
    && s.signals + Owed(s) == (if s.count == 0 then 1 else 0)
    && s.refs == Count(s.entries, Unfinished) + (if s.phase == Released then 0 else 1)
    && (s.phase == Posting || s.phase.Incremented? ==> s.biased)
    && (s.phase.Dropped? || s.phase == Waiting || s.phase.Returned? ==> !s.biased)
    && Fifo(s.entries)
    && OnlyTasksDecrement(s.entries)
  }

  /** A count after one entry changed its status. */
  ghost predicate CountMoves(entries: seq<Entry>, k: nat, status: Status, p: Property)
    requires k < |entries|
  {
    Count(WithStatus(entries, k, status), p)
    == Count(entries, p) - (if Has(entries[k], p) then 1 else 0)
       + (if Has(entries[k].(status := status), p) then 1 else 0)
  }

  lemma CountsMove(entries: seq<Entry>, k: nat, status: Status)
    requires k < |entries|
    ensures CountMoves(entries, k, status, Uncounted)
    ensures CountMoves(entries, k, status, Owing)
    ensures CountMoves(entries, k, status, Unfinished)
  {
    CountUpdate(entries, k, entries[k].(status := status), Uncounted);
    CountUpdate(entries, k, entries[k].(status := status), Owing);
    CountUpdate(entries, k, entries[k].(status := status), Unfinished);
  }

  lemma PostKeepsFifo(entries: seq<Entry>, e: Entry)
    requires Fifo(entries) && e.status == Queued
    ensures Fifo(entries + [e])
  {
  }

  lemma UpdateKeepsFifo(entries: seq<Entry>, k: nat, status: Status)
    requires Fifo(entries) && k < |entries|
    requires entries[k].status != Done && status != Queued
    requires entries[k].status == Queued ==> Ready(entries, k)
    ensures Fifo(WithStatus(entries, k, status))
  {
  }

  lemma WorkPostKeepsInv(s: System, e: Event)
    requires Inv(s) && e.Posts?
    ensures Inv(Step(s, e))
  {
    QueuedKeepsCounts(s.entries, Entry(e.runner, Work(e.work), Queued));
  }

  lemma TaskPostKeepsInv(s: System)
    requires Inv(s) && s.phase.Incremented?
    ensures Inv(Step(s, PostsRundown))
  {
    QueuedKeepsCounts(s.entries, Entry(s.phase.runner, Rundown, Queued));
  }

  lemma QueuedKeepsCounts(entries: seq<Entry>, e: Entry)
    requires Fifo(entries) && OnlyTasksDecrement(entries) && e.status == Queued
    ensures Fifo(entries + [e]) && OnlyTasksDecrement(entries + [e])
    ensures Count(entries + [e], Uncounted) == Count(entries, Uncounted) + if e.item == Rundown then 1 else 0
    ensures Count(entries + [e], Owing) == Count(entries, Owing)
    ensures Count(entries + [e], Unfinished) == Count(entries, Unfinished) + if e.item == Rundown then 1 else 0
  {
    CountSnoc(entries, e, Uncounted);
    CountSnoc(entries, e, Owing);
    CountSnoc(entries, e, Unfinished);
    PostKeepsFifo(entries, e);
  }

  /** The status that a step of a runner leaves behind. */
  function NextStatus(s: System, e: Event): Status {
    match e
    case Begins(_) => Running
    case Decrements(_) => Decremented(s.count - 1 == 0)
    case Signals(_) => Decremented(false)
    case _ => Done
  }

  lemma RunnerStepKeepsInv(s: System, e: Event)
    requires Inv(s) && Enabled(s, e) && (e.Begins? || e.Decrements? || e.Signals? || e.Ends?)
    ensures Inv(Step(s, e))
  {
    CountZero(s.entries, Uncounted);
    CountsMove(s.entries, e.k, NextStatus(s, e));
    UpdateKeepsFifo(s.entries, e.k, NextStatus(s, e));
  }

  /** The steps of the thread that owns the counter, which leave the runners alone. */
  lemma OwnerStepKeepsInv(s: System, e: Event)
    requires Inv(s) && Enabled(s, e) && !FromOutside(e) && e != PostsRundown
    ensures Inv(Step(s, e))
  {
    assert Step(s, e).entries == s.entries;
  }

  lemma StepKeepsInv(s: System, e: Event)
    requires Inv(s)
    ensures Inv(Step(s, e))
  {
    if !Enabled(s, e) {
    } else if e.Posts? {
      WorkPostKeepsInv(s, e);
    } else if e == PostsRundown {
      TaskPostKeepsInv(s);
    } else if FromOutside(e) {
      RunnerStepKeepsInv(s, e);
    } else {
      OwnerStepKeepsInv(s, e);
    }
  }

  lemma {:induction false} RunKeepsInv(s: System, es: seq<Event>)
    requires Inv(s)
    ensures Inv(Run(s, es))
    decreases es
  {
    if es != [] {
      RunKeepsInv(s, es[..|es| - 1]);
      StepKeepsInv(Run(s, es[..|es| - 1]), es[|es| - 1]);
    }
  }

  lemma ReachableInv(es: seq<Event>)
    ensures Inv(Run(START, es))
  {
    RunKeepsInv(START, es);
  }

  // ---------------------------------------------------------------- the counter

  /** On every run: the count is the number of tasks that have not decremented it, plus the
      excess one until `TimedWait` drops it, plus one between an increment and its post; it is
      not zero when `Post` checks it; and the calls of `Signal` made and due are one exactly
      when the count is zero. */
  lemma CounterInvariant(es: seq<Event>)
    ensures var s := Run(START, es);
      && s.count == Count(s.entries, Uncounted) + Excess(s)
      && (s.phase == Posting || s.phase.Incremented? ==> s.count > 0 && s.signals == 0)
      && s.signals + Owed(s) == (if s.count == 0 then 1 else 0)
  {
    ReachableInv(es);
  }

  /** Whoever has still to decrement, to signal or to return from either finds the counter
      alive, even after the wait has succeeded or timed out and `EndSession` has dropped its
      reference; and it dies with the last of them. */
  lemma CounterOutlivesItsUsers(es: seq<Event>)
    ensures var s := Run(START, es);
      s.refs > 0 <==> s.phase != Released || !NoneHas(s.entries, Unfinished)
  {
    ReachableInv(es);
    CountZero(Run(START, es).entries, Unfinished);
  }

  /** The excess count has been dropped, every rundown task has decremented the count, and
      nobody has still to signal. */
  ghost predicate AllSignalled(s: System) {
    && !s.biased && s.phase != Dropped(true)
    && NoneHas(s.entries, Uncounted) && NoneHas(s.entries, Owing)
  }

  lemma InvSignalledIff(s: System)
    requires Inv(s)
    ensures s.signals > 0 <==> AllSignalled(s)
  {
    CountZero(s.entries, Uncounted);
    CountZero(s.entries, Owing);
  }

  /** The event is signalled exactly then. */
  lemma SignalledIff(es: seq<Event>)
    ensures Run(START, es).signals > 0 <==> AllSignalled(Run(START, es))
  {
    ReachableInv(es);
    InvSignalledIff(Run(START, es));
  }

  // ---------------------------------------------------------------- the barrier

  /** What a state knows about the past stays true: the log only grows, items only move on
      from queued to running to done, and the event stays signalled. */
  ghost predicate Extends(before: System, after: System) {
    && |before.entries| <= |after.entries|
    && before.signals <= after.signals
    && forall k :: 0 <= k < |before.entries| ==>
         && after.entries[k].runner == before.entries[k].runner
         && after.entries[k].item == before.entries[k].item
         && (before.entries[k].status == Done ==> after.entries[k].status == Done)
         && (after.entries[k].status == Queued ==> before.entries[k].status == Queued)
  }

  lemma StepExtends(s: System, e: Event)
    ensures Extends(s, Step(s, e))
  {
  }

  lemma {:induction false} RunExtends(s: System, es: seq<Event>)
    ensures Extends(s, Run(s, es))
    decreases es
  {
    if es != [] {
      RunExtends(s, es[..|es| - 1]);
      StepExtends(Run(s, es[..|es| - 1]), es[|es| - 1]);
    }
  }

  lemma ExtendsTransitive(a: System, b: System, c: System)
    requires Extends(a, b) && Extends(b, c)
    ensures Extends(a, c)
  {
  }

  /** Everything given to a runner before a rundown task of that runner is done. */
  ghost predicate Flushed(entries: seq<Entry>) {
    forall j, k :: 0 <= j < k < |entries| && entries[j].runner == entries[k].runner ==>
      entries[k].item == Rundown ==> entries[j].status == Done
  }

  lemma SucceededImpliesFlushed(s: System)
    requires Inv(s) && s.signals > 0
    ensures Flushed(s.entries)
  {
    CountZero(s.entries, Uncounted);
    forall j, k | 0 <= j < k < |s.entries| && s.entries[j].runner == s.entries[k].runner
      && s.entries[k].item == Rundown
      ensures s.entries[j].status == Done
    {
      assert !Has(s.entries[k], Uncounted);
    }
  }

  lemma {:induction false} SignalOutlivesRun(es: seq<Event>)
    ensures Run(START, es).phase == Returned(true) ==> Run(START, es).signals > 0
    decreases es
  {
    if es != [] {
      SignalOutlivesRun(es[..|es| - 1]);
    }
  }

  /** The flush barrier, over every schedule, every number of runners and rundown tasks, and
      runners shared between them: once the wait has succeeded, all work given to a runner
      before one of its rundown tasks is done. */
  lemma FlushBarrier(es: seq<Event>)
    requires Run(START, es).phase == Returned(true)
    ensures Flushed(Run(START, es).entries)
  {
    ReachableInv(es);
    SignalOutlivesRun(es);
    SucceededImpliesFlushed(Run(START, es));
  }

  // ---------------------------------------------------------------- the runners catch up

  /** An item that returns is done: work once it runs, a rundown task once it has decremented
      and owes no signal; and nothing else changes on the runners. */
  lemma ReturnedItemsAreDone(s: System, k: nat)
    requires k < |s.entries|
    requires match s.entries[k].item
             case Work(_) => s.entries[k].status == Running
             case Rundown => s.entries[k].status == Decremented(false)
    ensures Step(s, Ends(k)).entries == s.entries[k := s.entries[k].(status := Done)]
  {
  }

  predicate AllDone(entries: seq<Entry>) { forall k :: 0 <= k < |entries| ==> entries[k].status == Done }

  /** How far an item is from done. */
  function LeftOf(e: Entry): nat {
    match e.status
    case Queued => 4
    case Running => 3
    case Decremented(owes) => if owes then 2 else 1
    case Done => 0
  }

  function Left(entries: seq<Entry>): nat {
    if entries == [] then 0 else Left(entries[..|entries| - 1]) + LeftOf(entries[|entries| - 1])
  }

  lemma {:induction false} LeftUpdate(entries: seq<Entry>, k: nat, e: Entry)
    requires k < |entries|
    ensures Left(entries[k := e]) == Left(entries) - LeftOf(entries[k]) + LeftOf(e)
  {
    var n := |entries| - 1;
    if k == n {
      assert entries[k := e][..n] == entries[..n];
    } else {
      assert entries[k := e][..n] == entries[..n][k := e];
      LeftUpdate(entries[..n], k, e);
    }
  }

  lemma {:induction false} FirstUndone(entries: seq<Entry>) returns (k: nat)
    requires !AllDone(entries)
    ensures k < |entries| && entries[k].status != Done
    ensures forall j :: 0 <= j < k ==> entries[j].status == Done
  {
    var n := |entries| - 1;
    if AllDone(entries[..n]) {
      k := n;
      assert forall j :: 0 <= j < n ==> entries[..n][j] == entries[j];
    } else {
      k := FirstUndone(entries[..n]);
      assert forall j :: 0 <= j < n ==> entries[..n][j] == entries[j];
    }
  }

  /** The steps by which runners carry on with what they have. */
  predicate Advances(e: Event) { e.Begins? || e.Decrements? || e.Signals? || e.Ends? }

  /** Runners cannot get stuck ... */
  lemma SomeItemCanAdvance(s: System) returns (e: Event)
    requires Inv(s) && !AllDone(s.entries)
    ensures Advances(e) && Enabled(s, e)
  {
    var k := FirstUndone(s.entries);
    var entry := s.entries[k];
    e := match entry.status
         case Queued => Begins(k)
         case Running => if entry.item == Rundown then Decrements(k) else Ends(k)
         case Decremented(owes) => if owes then Signals(k) else Ends(k)
         case Done => Ends(k);
  }

  /** ... and cannot go on for ever. */
  lemma AdvancingShrinks(s: System, e: Event)
    requires Advances(e) && Enabled(s, e)
    ensures Left(Step(s, e).entries) < Left(s.entries)
    ensures Step(s, e).phase == s.phase && |Step(s, e).entries| == |s.entries|
  {
    LeftUpdate(s.entries, e.k, s.entries[e.k].(status := NextStatus(s, e)));
  }

  /** From any reachable state, some steps of the runners alone finish every item they have;
      an owner that waits then finds the event signalled, so its wait can succeed, whatever
      was in front of the rundown tasks. */
  lemma RunnersCatchUp(s: System) returns (es: seq<Event>)
    requires Inv(s)
    ensures forall i :: 0 <= i < |es| ==> Advances(es[i])
    ensures AllFromOutside(es)
    ensures var after := Run(s, es);
      && |after.entries| == |s.entries| && AllDone(after.entries) && after.phase == s.phase
      && (s.phase == Waiting ==> after.signals > 0 && Enabled(after, WaitReturns(true)))
  {
    es := [];
    while !AllDone(Run(s, es).entries)
      invariant forall i :: 0 <= i < |es| ==> Advances(es[i])
      invariant Inv(Run(s, es)) && Run(s, es).phase == s.phase && |Run(s, es).entries| == |s.entries|
      decreases Left(Run(s, es).entries)
    {
      var e := SomeItemCanAdvance(Run(s, es));
      AdvancingShrinks(Run(s, es), e);
      StepKeepsInv(Run(s, es), e);
      RunSnoc(s, es, e);
      es := es + [e];
    }
    InvSignalledIff(Run(s, es));
  }

  // ---------------------------------------------------------------- the last task's signal

  /** A run longer by one step. */
  lemma Then(es: seq<Event>, e: Event) returns (longer: seq<Event>)
    ensures Run(START, longer) == Step(Run(START, es), e)
  {
    longer := es + [e];
    RunSnoc(START, es, e);
  }

  /** The owner waits and the only rundown task has decremented, but not signalled. */
  lemma SignalIsDue(r: RunnerId) returns (es: seq<Event>)
    ensures Run(START, es) == System(0, 0, 2, false, Waiting, [Entry(r, Rundown, Decremented(true))])
  {
    es := Then([], Increments(r));
    es := Then(es, PostsRundown);
    assert Run(START, es) == System(2, 0, 2, true, Posting, [Entry(r, Rundown, Queued)]);
    es := Then(es, DropsExcess);
    es := Then(es, StartsWait);
    assert Run(START, es) == System(1, 0, 2, false, Waiting, [Entry(r, Rundown, Queued)]);
    es := Then(es, Begins(0));
    es := Then(es, Decrements(0));
  }

  /** The wait can time out although everything was flushed: between the last decrement and
      its signal. */
  lemma TimeoutAfterLastDecrement(r: RunnerId) returns (es: seq<Event>)
    ensures var s := Run(START, es);
      s.phase == Returned(false) && s.count == 0 && s.signals == 0 && |s.entries| == 1 && NoneHas(s.entries, Uncounted)
  {
    es := SignalIsDue(r);
    es := Then(es, WaitReturns(false));
  }

  /** The wait can succeed, and `EndSession` drop its reference, while the last task has not
      returned from `Signal`; the task's own reference keeps the counter alive. */
  lemma ReleaseBeforeLastTaskReturns(r: RunnerId) returns (es: seq<Event>)
    ensures var s := Run(START, es);
      s.phase == Released && s.signals == 1 && s.refs == 1 && s.entries == [Entry(r, Rundown, Decremented(false))]
  {
    es := SignalIsDue(r);
    es := Then(es, Signals(0));
    es := Then(es, WaitReturns(true));
    es := Then(es, ReleasesCounter);
  }

  // ---------------------------------------------------------------- EndSession

  /** A loaded profile; without a preference service it has nothing to persist. */
  datatype Profile = Profile(ioRunner: RunnerId, hasPrefs: bool)

  /** The runners that must have persisted something before the process may die. */
  function Committers(profiles: seq<Profile>): seq<RunnerId> {
    if profiles == [] then [] else
    var before, last := Committers(profiles[..|profiles| - 1]), profiles[|profiles| - 1];
    if last.hasPrefs then before + [last.ioRunner] else before
  }

  lemma CommittersSnoc(profiles: seq<Profile>, i: nat)
    requires i < |profiles|
    ensures Committers(profiles[..i + 1])
         == Committers(profiles[..i]) + if profiles[i].hasPrefs then [profiles[i].ioRunner] else []
  {
    assert profiles[..i + 1][..i] == profiles[..i];
  }

  /** What other threads do inside one call: before, and after, its atomic step on the count. */
  datatype Meanwhile = Meanwhile(first: seq<Event>, second: seq<Event>)

  predicate FromOthers(m: Meanwhile) { AllFromOutside(m.first) && AllFromOutside(m.second) }

  lemma EarlierWorkIsUncounted(earlier: seq<Entry>)
    requires forall e :: e in earlier ==> e.item.Work? && !e.status.Decremented?
    ensures forall p :: Count(earlier, p) == 0
  {
    forall p
      ensures Count(earlier, p) == 0
    {
      assert forall k :: 0 <= k < |earlier| ==> earlier[k] in earlier;
      CountZero(earlier, p);
    }
  }

  /** The places of the profiles that have preferences on this runner. */
  function WithPrefs(profiles: seq<Profile>, runner: RunnerId): set<nat> {
    set i: nat | i < |profiles| && profiles[i].hasPrefs && profiles[i].ioRunner == runner
  }

  lemma WithPrefsSnoc(profiles: seq<Profile>, runner: RunnerId)
    requires profiles != []
    ensures var n := |profiles| - 1;
      && n !in WithPrefs(profiles[..n], runner)
      && WithPrefs(profiles, runner)
         == WithPrefs(profiles[..n], runner)
            + if profiles[n].hasPrefs && profiles[n].ioRunner == runner then {n} else {}
  {
  }

  /** One commit for each profile with preferences, on that profile's runner. */
  lemma {:induction false} CommittersCount(profiles: seq<Profile>, runner: RunnerId)
    ensures multiset(Committers(profiles))[runner] == |WithPrefs(profiles, runner)|
  {
    if profiles != [] {
      CommittersCount(profiles[..|profiles| - 1], runner);
      WithPrefsSnoc(profiles, runner);
    }
  }

  /** The whole of `TimedWait`, with what other threads do inside it. */
  function WaitOver(s: System, schedule: Meanwhile, ok: bool): System {
    Step(Run(Step(Step(Run(Step(s, DropsExcess), schedule.first), OwnerSignals), StartsWait), schedule.second),
         WaitReturns(ok))
  }

  /** Whatever was posted before it, the wait succeeds if the runners are given the time. */
  lemma WaitCanSucceed(s: System) returns (schedule: Meanwhile)
    requires Inv(s) && s.phase == Posting
    ensures FromOthers(schedule)
    ensures WaitOver(s, schedule, true).phase == Returned(true) && AllDone(WaitOver(s, schedule, true).entries)
  {
    var dropped := Step(s, DropsExcess);
    StepKeepsInv(s, DropsExcess);
    StepKeepsInv(dropped, OwnerSignals);
    StepKeepsInv(Step(dropped, OwnerSignals), StartsWait);
    var es := RunnersCatchUp(Step(Step(dropped, OwnerSignals), StartsWait));
    schedule := Meanwhile([], es);
  }

  class EndingSession {
    var count: int
    var signals: nat
    var refs: int
    var biased: bool
    var phase: Phase
    var entries: seq<Entry>

    function State(): System
      reads this
    {
      System(count, signals, refs, biased, phase, entries)
    }

    /** The runners may hold any amount of earlier work. */
    constructor (earlier: seq<Entry>)
      requires forall e :: e in earlier ==> e.item.Work? && !e.status.Decremented?
      requires Fifo(earlier)
      ensures State() == START.(entries := earlier) && Inv(State())
    {
      count, signals, refs, biased, phase, entries := 1, 0, 1, true, Posting, earlier;
      new;
      EarlierWorkIsUncounted(earlier);
    }

    /** One step of a runner or of another thread, if it is possible now. */
    method OutsideStep(e: Event)
      requires Inv(State()) && FromOutside(e)
      modifies this
      ensures State() == Step(old(State()), e)
      ensures Inv(State()) && Extends(old(State()), State()) && phase == old(phase)
      ensures e.Ends? && Enabled(old(State()), e) ==> |entries| == |old(entries)| && entries[e.k].status == Done
    {
      StepKeepsInv(State(), e);
      StepExtends(State(), e);
      match e
      case Posts(r, w) =>
        entries := entries + [Entry(r, Work(w), Queued)];
      case Begins(k) =>
        if Ready(entries, k) {
          entries := WithStatus(entries, k, Running);
        }
      case Decrements(k) =>
        if k < |entries| && entries[k].item == Rundown && entries[k].status == Running {
          var zero := AtomicDecrement();
          entries := WithStatus(entries, k, Decremented(zero));
        }
      case Signals(k) =>
        if k < |entries| && entries[k].status == Decremented(true) {
          signals := signals + 1;
          entries := WithStatus(entries, k, Decremented(false));
        }
      case Ends(k) =>
        if k < |entries| && Returning(entries[k]) {
          if entries[k].item == Rundown {
            refs := refs - 1;
          }
          entries := WithStatus(entries, k, Done);
        }
    }

    /** `AtomicRefCountDec`, negated. */
    method AtomicDecrement() returns (zero: bool)
      modifies this`count
      ensures count == old(count) - 1
      ensures zero <==> count == 0
    {
      count := count - 1;
      zero := count == 0;
    }

    /** Other threads and the runners take any steps they can. */
    method Interfere(schedule: seq<Event>)
      requires Inv(State())
      requires AllFromOutside(schedule)
      modifies this
      ensures State() == Run(old(State()), schedule)
      ensures Inv(State()) && Extends(old(State()), State()) && phase == old(phase)
    {
      var i := 0;
      while i < |schedule|
        invariant 0 <= i <= |schedule|
        invariant State() == Run(old(State()), schedule[..i])
        invariant Inv(State()) && phase == old(phase)
      {
        RunSnoc(old(State()), schedule[..i], schedule[i]);
        assert schedule[..i + 1] == schedule[..i] + [schedule[i]];
        OutsideStep(schedule[i]);
        i := i + 1;
      }
      assert schedule[..|schedule|] == schedule;
      RunExtends(old(State()), schedule);
    }

    /** `PrefService::CommitPendingWrite`: the write becomes work on the store's runner. */
    method CommitPendingWrite(runner: RunnerId, work: nat)
      requires Inv(State())
      modifies this
      ensures State() == old(State()).(entries := old(entries) + [Entry(runner, Work(work), Queued)])
      ensures Inv(State()) && Extends(old(State()), State())
    {
      StepKeepsInv(State(), Posts(runner, work));
      entries := entries + [Entry(runner, Work(work), Queued)];
    }

    method Increment(runner: RunnerId)
      requires Inv(State()) && phase == Posting
      modifies this`count, this`phase
      ensures State() == Step(old(State()), Increments(runner))
      ensures Inv(State()) && phase == Incremented(runner)
    {
      StepKeepsInv(State(), Increments(runner));
      assert count != 0;
      count, phase := count + 1, Incremented(runner);
    }

    /** Binding the closure takes a reference to the counter. */
    method PostTask()
      requires Inv(State()) && phase.Incremented?
      modifies this`refs, this`phase, this`entries
      ensures State() == Step(old(State()), PostsRundown)
      ensures Inv(State()) && phase == Posting
      ensures entries == old(entries) + [Entry(old(phase).runner, Rundown, Queued)]
    {
      StepKeepsInv(State(), PostsRundown);
      entries := entries + [Entry(phase.runner, Rundown, Queued)];
      refs, phase := refs + 1, Posting;
    }

    /** `Post`: the increment, then the post; `between` is what other threads do in between. */
    method Post(runner: RunnerId, between: seq<Event>) returns (k: nat)
      requires Inv(State()) && phase == Posting
      requires AllFromOutside(between)
      modifies this
      ensures State() == Step(Run(Step(old(State()), Increments(runner)), between), PostsRundown)
      ensures Inv(State()) && phase == Posting && Extends(old(State()), State())
      ensures |old(entries)| <= k < |entries| && entries[k] == Entry(runner, Rundown, Queued)
    {
      ghost var before := State();
      Increment(runner);
      Interfere(between);
      ghost var interfered := State();
      k := |entries|;
      PostTask();
      StepExtends(interfered, PostsRundown);
      assert Extends(before, interfered);
      ExtendsTransitive(before, interfered, State());
    }

    method DropExcess() returns (zero: bool)
      requires Inv(State()) && phase == Posting
      modifies this`count, this`biased, this`phase
      ensures State() == Step(old(State()), DropsExcess)
      ensures Inv(State()) && phase == Dropped(zero)
    {
      StepKeepsInv(State(), DropsExcess);
      zero := AtomicDecrement();
      biased, phase := false, Dropped(zero);
    }

    method Signal()
      requires Inv(State()) && phase == Dropped(true)
      modifies this`signals, this`phase
      ensures State() == Step(old(State()), OwnerSignals)
      ensures Inv(State()) && phase == Dropped(false)
    {
      StepKeepsInv(State(), OwnerSignals);
      signals, phase := signals + 1, Dropped(false);
    }

    /** `Decrement`, as `TimedWait` calls it: the atomic decrement, then the signal if that
        made the count zero; `between` is what other threads do in between. */
    method Decrement(between: seq<Event>)
      requires Inv(State()) && phase == Posting
      requires AllFromOutside(between)
      modifies this
      ensures State() == Step(Run(Step(old(State()), DropsExcess), between), OwnerSignals)
      ensures Inv(State()) && phase == Dropped(false) && Extends(old(State()), State())
    {
      ghost var before := State();
      var zero := DropExcess();
      Interfere(between);
      ghost var interfered := State();
      if zero {
        Signal();
      }
      StepExtends(interfered, OwnerSignals);
      assert Extends(before, interfered);
      ExtendsTransitive(before, interfered, State());
    }

    /** Meanwhile the rest of the process takes the steps of `schedule.first` inside the
        decrement and those of `schedule.second` during the wait, until the event is signalled
        or the time is up.  It succeeds exactly when every rundown task has decremented and
        none has still to signal; the last one need not have returned. */
    method TimedWait(schedule: Meanwhile) returns (ok: bool)
      requires Inv(State()) && phase == Posting
      requires FromOthers(schedule)
      modifies this
      ensures State() == WaitOver(old(State()), schedule, ok)
      ensures Inv(State()) && Extends(old(State()), State())
      ensures phase == Returned(ok) && (ok ==> signals > 0)
      ensures ok <==> NoneHas(entries, Uncounted) && NoneHas(entries, Owing)
    {
      ghost var before := State();
      Decrement(schedule.first);
      ghost var decremented := State();
      ok := WaitForEvent(schedule.second);
      ExtendsTransitive(before, decremented, State());
    }

    method StartWait()
      requires Inv(State()) && phase == Dropped(false)
      modifies this`phase
      ensures State() == Step(old(State()), StartsWait)
      ensures Inv(State()) && phase == Waiting
    {
      StepKeepsInv(State(), StartsWait);
      phase := Waiting;
    }

    method EndWait() returns (ok: bool)
      requires Inv(State()) && phase == Waiting
      modifies this`phase
      ensures State() == Step(old(State()), WaitReturns(ok))
      ensures Inv(State()) && phase == Returned(ok) && ok == (signals > 0)
    {
      ok := signals > 0;
      StepKeepsInv(State(), WaitReturns(ok));
      phase := Returned(ok);
    }

    /** The wait on the event. */
    method WaitForEvent(schedule: seq<Event>) returns (ok: bool)
      requires Inv(State()) && phase == Dropped(false)
      requires AllFromOutside(schedule)
      modifies this
      ensures State() == Step(Run(Step(old(State()), StartsWait), schedule), WaitReturns(ok))
      ensures Inv(State()) && Extends(old(State()), State())
      ensures phase == Returned(ok) && (ok ==> signals > 0)
      ensures ok <==> NoneHas(entries, Uncounted) && NoneHas(entries, Owing)
    {
      StartWait();
      Interfere(schedule);
      ok := EndWait();
      InvSignalledIff(State());
    }

    /** `written[i]` and `sentinels[i]` are the places in the log, from `start` on, of the
        i-th commit and of the rundown task posted behind it. */
    static ghost predicate Guarded(entries: seq<Entry>, start: nat, runners: seq<RunnerId>,
                                   written: seq<nat>, sentinels: seq<nat>) {
      && |written| == |sentinels| == |runners|
      && forall i :: 0 <= i < |runners| ==> GuardedAt(entries, start, runners[i], written[i], sentinels[i])
    }

    static predicate GuardedAt(entries: seq<Entry>, start: nat, runner: RunnerId, w: nat, k: nat) {
      && start <= w < k < |entries|
      && entries[w].runner == entries[k].runner == runner
      && entries[w].item.Work?
      && entries[k].item == Rundown
    }

    static lemma GuardedExtends(before: System, after: System, start: nat, runners: seq<RunnerId>,
                                written: seq<nat>, sentinels: seq<nat>)
      requires Guarded(before.entries, start, runners, written, sentinels)
      requires Extends(before, after)
      ensures Guarded(after.entries, start, runners, written, sentinels)
    {
      forall i | 0 <= i < |runners|
        ensures GuardedAt(after.entries, start, runners[i], written[i], sentinels[i])
      {
        assert GuardedAt(before.entries, start, runners[i], written[i], sentinels[i]);
      }
    }

    static lemma GuardedSnoc(entries: seq<Entry>, start: nat, runners: seq<RunnerId>,
                             written: seq<nat>, sentinels: seq<nat>, runner: RunnerId, w: nat, k: nat)
      requires Guarded(entries, start, runners, written, sentinels) && GuardedAt(entries, start, runner, w, k)
      ensures Guarded(entries, start, runners + [runner], written + [w], sentinels + [k])
    {
    }

    /** One commit with its rundown task; anything may run in between, and inside `Post`. */
    method CommitAndPost(runner: RunnerId, between: Meanwhile) returns (w: nat, k: nat)
      requires Inv(State()) && phase == Posting
      requires FromOthers(between)
      modifies this
      ensures Inv(State()) && phase == Posting && Extends(old(State()), State())
      ensures GuardedAt(entries, |old(entries)|, runner, w, k)
    {
      w := |entries|;
      CommitPendingWrite(runner, w);
      ghost var committed := State();
      Interfere(between.first);
      ghost var interfered := State();
      assert Extends(committed, interfered);
      k := Post(runner, between.second);
      ExtendsTransitive(committed, interfered, State());
      ExtendsTransitive(old(State()), committed, State());
      assert committed.entries[w] == Entry(runner, Work(w), Queued);
    }

    /** One round of the loop over the loaded profiles. */
    method CommitProfile(profile: Profile, schedule: Meanwhile, ghost start: nat, ghost runners: seq<RunnerId>,
                         written: seq<nat>, ghost sentinels: seq<nat>)
      returns (written': seq<nat>, ghost runners': seq<RunnerId>, ghost sentinels': seq<nat>)
      requires Inv(State()) && phase == Posting && start <= |entries|
      requires FromOthers(schedule)
      requires Guarded(entries, start, runners, written, sentinels)
      modifies this
      ensures Inv(State()) && phase == Posting && start <= |entries|
      ensures runners' == if profile.hasPrefs then runners + [profile.ioRunner] else runners
      ensures Guarded(entries, start, runners', written', sentinels')
    {
      written', runners', sentinels' := written, runners, sentinels;
      if profile.hasPrefs {
        var w, k := CommitAndPost(profile.ioRunner, schedule);
        GuardedExtends(old(State()), State(), start, runners, written, sentinels);
        GuardedSnoc(entries, start, runners, written, sentinels, profile.ioRunner, w, k);
        written', runners', sentinels' := written + [w], runners + [profile.ioRunner], sentinels + [k];
      } else {
        Interfere(schedule.first);
        GuardedExtends(old(State()), State(), start, runners, written, sentinels);
      }
    }

    /** The loop over the loaded profiles; `schedules[i]` happens during its i-th round. */
    method CommitProfiles(profiles: seq<Profile>, schedules: seq<Meanwhile>, ghost start: nat)
      returns (written: seq<nat>, ghost sentinels: seq<nat>)
      requires Inv(State()) && phase == Posting && start <= |entries|
      requires |schedules| == |profiles|
      requires forall i :: 0 <= i < |schedules| ==> FromOthers(schedules[i])
      modifies this
      ensures Inv(State()) && phase == Posting && start <= |entries|
      ensures Guarded(entries, start, Committers(profiles), written, sentinels)
    {
      written, sentinels := [], [];
      ghost var runners: seq<RunnerId> := [];
      var i := 0;
      while i < |profiles|
        invariant 0 <= i <= |profiles| && runners == Committers(profiles[..i])
        invariant Inv(State()) && phase == Posting && start <= |entries|
        invariant Guarded(entries, start, runners, written, sentinels)
      {
        CommittersSnoc(profiles, i);
        written, runners, sentinels := CommitProfile(profiles[i], schedules[i], start, runners, written, sentinels);
        i := i + 1;
      }
      assert profiles[..|profiles|] == profiles;
    }

    /** The wait, and what its success means for the commits made before it. */
    method WaitForRundown(schedule: Meanwhile, ghost start: nat, ghost runners: seq<RunnerId>,
                          written: seq<nat>, ghost sentinels: seq<nat>)
      returns (ok: bool)
      requires Inv(State()) && phase == Posting
      requires FromOthers(schedule)
      requires Guarded(entries, start, runners, written, sentinels)
      modifies this
      ensures Inv(State()) && phase == Returned(ok)
      ensures Guarded(entries, start, runners, written, sentinels)
      ensures ok ==> forall i :: 0 <= i < |written| ==> entries[written[i]].status == Done
    {
      ok := TimedWait(schedule);
      GuardedExtends(old(State()), State(), start, runners, written, sentinels);
      if ok {
        SucceededImpliesFlushed(State());
        forall i | 0 <= i < |written|
          ensures entries[written[i]].status == Done
        {
          assert GuardedAt(entries, start, runners[i], written[i], sentinels[i]);
        }
      }
    }

    static lemma GuardedMeans(entries: seq<Entry>, start: nat, runners: seq<RunnerId>,
                              written: seq<nat>, sentinels: seq<nat>)
      requires Guarded(entries, start, runners, written, sentinels)
      ensures |written| == |runners|
      ensures forall i :: 0 <= i < |runners| ==>
                start <= written[i] < |entries|
                && entries[written[i]].runner == runners[i] && entries[written[i]].item.Work?
    {
      forall i | 0 <= i < |runners|
        ensures GuardedAt(entries, start, runners[i], written[i], sentinels[i])
      {
      }
    }

    /** The end of `EndSession` drops its reference to the counter. */
    method Release()
      requires Inv(State()) && phase.Returned?
      modifies this`phase, this`refs
      ensures State() == Step(old(State()), ReleasesCounter)
      ensures Inv(State()) && phase == Released
    {
      StepKeepsInv(State(), ReleasesCounter);
      phase, refs := Released, refs - 1;
    }

    /** The commit of the local state, with its rundown task, if there are metrics. */
    method CommitLocalState(wanted: bool, runner: RunnerId, schedule: Meanwhile, ghost start: nat,
                            ghost runners: seq<RunnerId>, written: seq<nat>, ghost sentinels: seq<nat>)
      returns (written': seq<nat>, ghost runners': seq<RunnerId>, ghost sentinels': seq<nat>)
      requires Inv(State()) && phase == Posting && start <= |entries|
      requires FromOthers(schedule)
      requires Guarded(entries, start, runners, written, sentinels)
      modifies this
      ensures Inv(State()) && phase == Posting && start <= |entries|
      ensures runners' == runners + if wanted then [runner] else []
      ensures Guarded(entries, start, runners', written', sentinels')
    {
      written', runners', sentinels' := written, runners, sentinels;
      if wanted {
        written', runners', sentinels' :=
          CommitProfile(Profile(runner, true), schedule, start, runners, written, sentinels);
      }
    }

    /** `EndSession`.  `schedules`, `duringMetrics` and `duringWait` are what the rest of the
        process does meanwhile; nothing is assumed about them.  When the wait succeeds, the
        commit made for every profile with preferences, and the one for the local state, has
        been carried out. */
    method EndSession(profiles: seq<Profile>, hasMetrics: bool, hasLocalState: bool, localStateRunner: RunnerId,
                      schedules: seq<Meanwhile>, duringMetrics: Meanwhile, duringWait: Meanwhile)
      returns (ok: bool, written: seq<nat>)
      requires Inv(State()) && phase == Posting
      requires |schedules| == |profiles|
      requires forall i :: 0 <= i < |schedules| ==> FromOthers(schedules[i])
      requires FromOthers(duringMetrics)
      requires FromOthers(duringWait)
      modifies this
      ensures Inv(State()) && phase == Released
      ensures var runners := Committers(profiles) + if hasMetrics && hasLocalState then [localStateRunner] else [];
        && |written| == |runners|
        && forall i :: 0 <= i < |runners| ==>
             && |old(entries)| <= written[i] < |entries|
             && entries[written[i]].runner == runners[i]
             && entries[written[i]].item.Work?
             && (ok ==> entries[written[i]].status == Done)
    {
      ghost var start := |entries|;
      ghost var runners, sentinels;
      written, sentinels := CommitProfiles(profiles, schedules, start);
      written, runners, sentinels :=
        CommitLocalState(hasMetrics && hasLocalState, localStateRunner, duringMetrics, start,
                         Committers(profiles), written, sentinels);
      ok := WaitForRundown(duringWait, start, runners, written, sentinels);
      Release();
      GuardedMeans(entries, start, runners, written, sentinels);
    }
  }
}
