/**
 Browser processes that share a user data directory and overlap.  A second invocation loads the
 preferences and reads what the last session left before it looks for a running browser
 (browser/chrome_browser_main.cc:1031, 1477, 1534), shuts down like any other process even if
 it only notified that browser (lines 2022-2030, 2063), and is a full browser if the first one
 is shutting down (browser/process_singleton_posix.cc:854-856).

 Each process does what ShutdownSessions describes, with its own copy of the preferences on
 the shared disk; the last section proves that a process without overlap is exactly that.
 What other processes can come between is split: reading and deleting the time file, and
 committing the preferences, relaunching and writing the time.
 */
module OverlappingSessions {
  import opened Wrappers
  import S = ShutdownSessions

  datatype Phase =
    | Starting    // before ReadLastShutdownInfo
    | Up          // until ShutdownPreThreadsStop
    | Recorded    // RecordShutdownInfoPrefs has run
    | Stopped     // the threads are gone and the preferences are committed
    | Leaving     // ShutdownPostThreadsStop has relaunched, if it does
    | Down

  /** ReadLastShutdownFile on the FILE thread. */
  datatype FileTask =
    | NoTask
    | Posted(triple: S.Triple)
    | HasRead(triple: S.Triple, time: Option<S.TimeFile>)   // and not deleted the file yet

  datatype Process = Process(
    phase: Phase,
    memory: S.Prefs,               // its copy of the preferences
    task: FileTask,
    own: S.Triple,                 // g_shutdown_type and the two counters
    restartLastSession: Option<nat>,
    background: bool)

  /** Process `i` is session number `i + 1`. */
  datatype World = World(
    procs: seq<Process>,
    disk: S.Prefs,
    file: Option<S.TimeFile>,
    requests: nat,
    cancelled: set<nat>,
    reports: seq<S.Report>,
    relaunches: seq<S.Relaunch>)

  const START := World([], S.NO_PREFS, None, 0, {}, [], [])

  datatype Action =
    | ReadsLastShutdownInfo
    | ReadsFile
    | DeletesFile                  // and reports
    | ShutdownStarts(kind: S.ShutdownType, fastExits: seq<bool>)
    | RequestsRestart
    | SetsTryingToQuit(quitting: bool)
    | SetsRestartInBackground(background: bool)
    | Flushes
    | RecordsPrefs
    | Commits                      // the last commit is written, the threads stop
    | Relaunches                   // ... or not
    | WritesTime(milliseconds: int)
    | Crashes

  datatype Event =
    | Launches                     // a process starts and loads the preferences
    | Acts(p: nat, action: Action)

  predicate Alive(c: Process) { c.phase in {Starting, Up, Recorded} }

  predicate Enabled(c: Process, a: Action) {
    match a
    case ReadsLastShutdownInfo => c.phase == Starting
    case ReadsFile => Alive(c) && c.task.Posted?
    case DeletesFile => Alive(c) && c.task.HasRead?
    case ShutdownStarts(kind, _) => Alive(c) && kind != S.NotValid
    case RecordsPrefs => c.phase == Up
    case Commits => c.phase == Recorded && !c.task.HasRead?   // a running task is waited for
    case Relaunches => c.phase == Stopped
    case WritesTime(_) => c.phase == Leaving
    case Crashes => c.phase != Down
    case _ => Alive(c)
  }

  predicate Can(w: World, p: nat, a: Action) { p < |w.procs| && Enabled(w.procs[p], a) }

  // ---------------------------------------------------------------- what a step does

  function Moved(w: World, p: nat, a: Action): Process
    requires Can(w, p, a)
  {
    var c := w.procs[p];
    match a
    case ReadsLastShutdownInfo =>
      c.(phase := Up, task := Posted(c.memory.triple), memory := c.memory.(triple := S.NO_TRIPLE))
    case ReadsFile => c.(task := HasRead(c.task.triple, w.file))
    case DeletesFile => c.(task := NoTask)
    case ShutdownStarts(kind, fastExits) => c.(own := S.ShutdownStarted(c.own, kind, fastExits, p + 1))
    case RequestsRestart => c.(memory := c.memory.(restart := Some(w.requests)))
    case SetsTryingToQuit(quitting) =>
      if quitting then c else c.(memory := c.memory.(restart := None), background := false)
    case SetsRestartInBackground(b) => c.(background := b)
    case Flushes => c
    case RecordsPrefs =>
      c.(phase := Recorded,
         memory := S.Prefs(if S.Measured(c.own) then c.own else c.memory.triple, None),
         restartLastSession := c.memory.restart)
    case Commits => c.(phase := Stopped, task := NoTask)
    case Relaunches => c.(phase := Leaving)
    case WritesTime(_) => c.(phase := Down)
    case Crashes => c.(phase := Down, task := NoTask)
  }

  function DiskAfter(w: World, p: nat, a: Action): S.Prefs
    requires Can(w, p, a)
  {
    if a.Flushes? || a.Commits? then w.procs[p].memory else w.disk
  }

  function FileAfter(w: World, p: nat, a: Action): Option<S.TimeFile>
    requires Can(w, p, a)
  {
    if a.DeletesFile? then None
    else if a.WritesTime? && S.Measured(w.procs[p].own) then Some(S.TimeFile(a.milliseconds, p + 1))
    else w.file
  }

  function Withdrawn(w: World, p: nat, a: Action): set<nat>
    requires Can(w, p, a)
  {
    if a == SetsTryingToQuit(false) && w.procs[p].memory.restart.Some? then {w.procs[p].memory.restart.value} else {}
  }

  /** The file task will report. */
  predicate WillReport(t: FileTask) {
    t.HasRead? && t.time.Some? && S.Reportable(t.triple, t.time.value)
  }

  function Reported(w: World, p: nat, a: Action): seq<S.Report>
    requires Can(w, p, a)
  {
    var t := w.procs[p].task;
    if a.DeletesFile? && WillReport(t) then [S.Report(t.triple, t.time.value, p + 1)] else []
  }

  function Relaunched(w: World, p: nat, a: Action): seq<S.Relaunch>
    requires Can(w, p, a)
  {
    var c := w.procs[p];
    if a.Relaunches? && c.restartLastSession.Some?
    then [S.Relaunch(c.restartLastSession.value, c.background)] else []
  }

  function NewProcess(disk: S.Prefs): Process {
    Process(Starting, disk, NoTask, S.NO_TRIPLE, None, false)
  }

  function Step(w: World, e: Event): World {
    match e
    case Launches => w.(procs := w.procs + [NewProcess(w.disk)])
    case Acts(p, a) =>
      if !Can(w, p, a) then w else
      World(w.procs[p := Moved(w, p, a)], DiskAfter(w, p, a), FileAfter(w, p, a),
            if a.RequestsRestart? then w.requests + 1 else w.requests,
            w.cancelled + Withdrawn(w, p, a),
            w.reports + Reported(w, p, a),
            w.relaunches + Relaunched(w, p, a))
  }

  function Run(w: World, es: seq<Event>): World
    decreases es
  {
    if es == [] then w else Step(Run(w, es[..|es| - 1]), es[|es| - 1])
  }

  lemma RunSnoc(w: World, es: seq<Event>, e: Event)
    ensures Run(w, es + [e]) == Step(Run(w, es), e)
  {
    assert (es + [e])[..|es|] == es;
  }

  lemma {:induction false} RunConcat(w: World, es: seq<Event>, fs: seq<Event>)
    ensures Run(w, es + fs) == Run(Run(w, es), fs)
    decreases fs
  {
    if fs == [] {
      assert es + fs == es;
    } else {
      var n := |fs| - 1;
      assert es + fs == (es + fs[..n]) + [fs[n]];
      RunSnoc(w, es + fs[..n], fs[n]);
      RunConcat(w, es, fs[..n]);
    }
  }

  // ---------------------------------------------------------------- restart requests

  /** A process that can still answer the request, or write it to disk again. */
  predicate HoldsRequest(c: Process, r: nat) {
    || (Alive(c) && c.memory.restart == Some(r))
    || (c.phase in {Recorded, Stopped} && c.restartLastSession == Some(r))
  }

  ghost predicate RequestHeld(w: World, r: nat) {
    exists p :: 0 <= p < |w.procs| && HoldsRequest(w.procs[p], r)
  }

  ghost predicate Answered(relaunches: seq<S.Relaunch>, r: nat) {
    exists i :: 0 <= i < |relaunches| && relaunches[i].request == r
  }

  ghost predicate AnsweredOnce(relaunches: seq<S.Relaunch>) {
    forall i, j :: 0 <= i < j < |relaunches| ==> relaunches[i].request != relaunches[j].request
  }

  /** The process that is starting does not load a request that another process holds. */
  ghost predicate LoadsAlone(w: World) {
    w.disk.restart.Some? ==> !RequestHeld(w, w.disk.restart.value)
  }

  ghost predicate RequestsLoadedAlone(es: seq<Event>) {
    es == [] ||
    var before := es[..|es| - 1];
    RequestsLoadedAlone(before) && (es[|es| - 1] == Launches ==> LoadsAlone(Run(START, before)))
  }

  ghost predicate RequestOk(w: World, r: nat) { r < w.requests && !Answered(w.relaunches, r) }

  ghost predicate ProcessRequestsOk(w: World, c: Process) {
    && (forall r :: HoldsRequest(c, r) ==> RequestOk(w, r))
    && (c.phase in {Starting, Up} ==> c.restartLastSession.None?)
    && (c.phase == Recorded && c.restartLastSession.Some? ==> c.memory.restart != c.restartLastSession)
    && (c.phase == Stopped && c.restartLastSession.Some? ==> w.disk.restart != c.restartLastSession)
  }

  ghost predicate RequestInv(w: World) {
    && (forall p :: 0 <= p < |w.procs| ==> ProcessRequestsOk(w, w.procs[p]))
    && (forall p, q, r :: 0 <= p < q < |w.procs| && HoldsRequest(w.procs[p], r) ==> !HoldsRequest(w.procs[q], r))
    && (w.disk.restart.Some? ==> RequestOk(w, w.disk.restart.value))
    && (forall i :: 0 <= i < |w.relaunches| ==> w.relaunches[i].request < w.requests)
    && AnsweredOnce(w.relaunches)
  }

  lemma MovedHolds(w: World, p: nat, a: Action, r: nat)
    requires Can(w, p, a) && HoldsRequest(Moved(w, p, a), r)
    ensures HoldsRequest(w.procs[p], r) || (a.RequestsRestart? && r == w.requests)
  {
  }

  lemma LaunchKeepsRequestInv(w: World)
    requires RequestInv(w) && LoadsAlone(w)
    ensures RequestInv(Step(w, Launches))
  {
    var w' := Step(w, Launches);
    forall p | 0 <= p < |w'.procs|
      ensures ProcessRequestsOk(w', w'.procs[p])
    {
      if p < |w.procs| {
        assert ProcessRequestsOk(w, w.procs[p]);
      }
    }
  }

  /** What a step does to the requests of process `q`, which may be the acting one. */
  lemma ActKeepsProcessRequests(w: World, p: nat, a: Action, q: nat)
    requires RequestInv(w) && Can(w, p, a) && q < |w.procs|
    ensures var w' := Step(w, Acts(p, a)); ProcessRequestsOk(w', w'.procs[q])
  {
    var w' := Step(w, Acts(p, a));
    assert ProcessRequestsOk(w, w.procs[p]) && ProcessRequestsOk(w, w.procs[q]);
    forall r | HoldsRequest(w'.procs[q], r)
      ensures RequestOk(w', r)
    {
      if p == q {
        MovedHolds(w, p, a, r);
      }
      HeldIsUnanswered(w, p, a, q, r);
    }
    if w.procs[q].phase == Recorded && w.procs[q].restartLastSession.Some? {
      assert HoldsRequest(w.procs[q], w.procs[q].restartLastSession.value);
    }
    if q != p && w.procs[q].phase == Stopped && w.procs[q].restartLastSession.Some? {
      assert HoldsRequest(w.procs[q], w.procs[q].restartLastSession.value);
      if a.Flushes? || a.Commits? {
        assert w.procs[p].memory.restart.Some? ==> HoldsRequest(w.procs[p], w.procs[p].memory.restart.value);
      }
    }
  }

  lemma HeldIsUnanswered(w: World, p: nat, a: Action, q: nat, r: nat)
    requires RequestInv(w) && Can(w, p, a) && q < |w.procs|
    requires HoldsRequest(Step(w, Acts(p, a)).procs[q], r)
    requires HoldsRequest(w.procs[q], r) || (p == q && a.RequestsRestart? && r == w.requests)
    ensures RequestOk(Step(w, Acts(p, a)), r)
  {
    assert ProcessRequestsOk(w, w.procs[q]);
    if a.Relaunches? && w.procs[p].restartLastSession.Some? {
      assert HoldsRequest(w.procs[p], w.procs[p].restartLastSession.value);
      assert w.procs[p].restartLastSession.value != r;
    }
  }

  lemma ActKeepsUniqueHolder(w: World, p: nat, a: Action, i: nat, j: nat, r: nat)
    requires RequestInv(w) && Can(w, p, a) && i < j < |w.procs|
    ensures var w' := Step(w, Acts(p, a)); HoldsRequest(w'.procs[i], r) ==> !HoldsRequest(w'.procs[j], r)
  {
    if p in {i, j} && HoldsRequest(Moved(w, p, a), r) {
      MovedHolds(w, p, a, r);
    }
    assert ProcessRequestsOk(w, w.procs[i]) && ProcessRequestsOk(w, w.procs[j]);
  }

  lemma ActKeepsDiskRequest(w: World, p: nat, a: Action)
    requires RequestInv(w) && Can(w, p, a)
    ensures var w' := Step(w, Acts(p, a)); w'.disk.restart.Some? ==> RequestOk(w', w'.disk.restart.value)
  {
    var c := w.procs[p];
    assert ProcessRequestsOk(w, c);
    if c.memory.restart.Some? && Alive(c) {
      assert HoldsRequest(c, c.memory.restart.value);
    }
  }

  lemma ActKeepsAnswers(w: World, p: nat, a: Action)
    requires RequestInv(w) && Can(w, p, a)
    ensures var w' := Step(w, Acts(p, a));
      && AnsweredOnce(w'.relaunches)
      && forall i :: 0 <= i < |w'.relaunches| ==> w'.relaunches[i].request < w'.requests
  {
    var c := w.procs[p];
    assert ProcessRequestsOk(w, c);
    if a.Relaunches? && c.restartLastSession.Some? {
      assert HoldsRequest(c, c.restartLastSession.value);
    } else {
      assert Step(w, Acts(p, a)).relaunches == w.relaunches;
    }
  }

  lemma StepKeepsRequestInv(w: World, e: Event)
    requires RequestInv(w) && (e == Launches ==> LoadsAlone(w))
    ensures RequestInv(Step(w, e))
  {
    if e == Launches {
      LaunchKeepsRequestInv(w);
    } else if Can(w, e.p, e.action) {
      var w' := Step(w, e);
      forall q | 0 <= q < |w'.procs|
        ensures ProcessRequestsOk(w', w'.procs[q])
      {
        ActKeepsProcessRequests(w, e.p, e.action, q);
      }
      forall i, j, r | 0 <= i < j < |w'.procs| && HoldsRequest(w'.procs[i], r)
        ensures !HoldsRequest(w'.procs[j], r)
      {
        ActKeepsUniqueHolder(w, e.p, e.action, i, j, r);
      }
      ActKeepsDiskRequest(w, e.p, e.action);
      ActKeepsAnswers(w, e.p, e.action);
    }
  }

  /** Over any number of overlapping processes, with crashes and late preference writes
      anywhere: if no process loads a restart request that another one holds, each request
      causes at most one relaunch. */
  lemma {:induction false} OneRelaunchPerRequest(es: seq<Event>)
    requires RequestsLoadedAlone(es)
    ensures RequestInv(Run(START, es)) && AnsweredOnce(Run(START, es).relaunches)
    decreases es
  {
    if es != [] {
      OneRelaunchPerRequest(es[..|es| - 1]);
      StepKeepsRequestInv(Run(START, es[..|es| - 1]), es[|es| - 1]);
    }
  }

  /** Any other load can lead to two relaunches. */
  lemma SharedRequestAnsweredTwice(w: World, p: nat, r: nat) returns (es: seq<Event>)
    requires p < |w.procs| && HoldsRequest(w.procs[p], r) && w.disk.restart == Some(r)
    ensures es != [] && es[0] == Launches && NoCrash(es)
    ensures !AnsweredOnce(Run(w, es).relaunches)
  {
    es := Then(w, [], Launches);
    es := LaunchedAnswers(w, es, r);
    ghost var once := Run(w, es).relaunches;
    assert Run(w, es).procs[p] == w.procs[p];
    es := HolderAnswersLater(w, es, p, r);
    var twice, n := Run(w, es).relaunches, |w.relaunches|;
    assert twice[..n + 1] == once && twice[n].request == r && twice[n + 1].request == r;
  }

  /** A holder can answer itself, or leave the request on disk for the next process. */
  lemma HolderAnswersLater(w: World, es: seq<Event>, p: nat, r: nat) returns (longer: seq<Event>)
    requires p < |Run(w, es).procs| && HoldsRequest(Run(w, es).procs[p], r)
    ensures es <= longer && (NoCrash(es) ==> NoCrash(longer))
    ensures var before, after := Run(w, es).relaunches, Run(w, longer).relaunches;
      |after| == |before| + 1 && after[..|before|] == before && after[|before|].request == r
  {
    var c := Run(w, es).procs[p];
    if Alive(c) && c.memory.restart == Some(r) {
      longer := Then(w, es, Acts(p, Flushes));
      assert Run(w, longer).disk == c.memory && Run(w, longer).relaunches == Run(w, es).relaunches;
      longer := Then(w, longer, Launches);
      longer := LaunchedAnswers(w, longer, r);
    } else {
      longer := RecordedAnswers(w, es, p, r);
    }
  }

  predicate IsCrash(e: Event) { e.Acts? && e.action == Crashes }

  predicate NoCrash(es: seq<Event>) { forall i :: 0 <= i < |es| ==> !IsCrash(es[i]) }

  /** A run longer by one step. */
  lemma Then(w: World, es: seq<Event>, e: Event) returns (longer: seq<Event>)
    ensures Run(w, longer) == Step(Run(w, es), e)
    ensures longer == es + [e]
    ensures NoCrash(longer) <==> NoCrash(es) && !IsCrash(e)
  {
    longer := es + [e];
    RunSnoc(w, es, e);
    assert longer[|es|] == e && forall i :: 0 <= i < |es| ==> longer[i] == es[i];
  }

  /** Between two states only process `p` acted, and withdrew nothing. */
  ghost predicate OnlyActed(before: World, after: World, p: nat) {
    && |after.procs| == |before.procs|
    && (forall q :: 0 <= q < |before.procs| && q != p ==> after.procs[q] == before.procs[q])
    && after.cancelled == before.cancelled
  }

  lemma ActIsAlone(w: World, p: nat, a: Action)
    requires a != SetsTryingToQuit(false)
    ensures OnlyActed(w, Step(w, Acts(p, a)), p)
  {
  }

  /** The process just launched, which loaded the request, shuts down and answers it. */
  lemma LaunchedAnswers(w: World, es: seq<Event>, r: nat) returns (longer: seq<Event>)
    requires Run(w, es).procs != []
    requires var procs := Run(w, es).procs;
      procs[|procs| - 1] == NewProcess(Run(w, es).disk) && Run(w, es).disk.restart == Some(r)
    ensures es <= longer && (NoCrash(es) ==> NoCrash(longer))
    ensures var before, after := Run(w, es), Run(w, longer);
      && after.relaunches == before.relaunches + [S.Relaunch(r, false)]
      && OnlyActed(before, after, |before.procs| - 1)
  {
    var p := |Run(w, es).procs| - 1;
    ActIsAlone(Run(w, es), p, ReadsLastShutdownInfo);
    longer := Then(w, es, Acts(p, ReadsLastShutdownInfo));
    longer := UpAnswers(w, longer, p, r);
  }

  lemma UpAnswers(w: World, es: seq<Event>, p: nat, r: nat) returns (longer: seq<Event>)
    requires p < |Run(w, es).procs|
    requires var c := Run(w, es).procs[p]; c.phase == Up && c.memory.restart == Some(r)
    ensures es <= longer && (NoCrash(es) ==> NoCrash(longer))
    ensures var before, after := Run(w, es), Run(w, longer);
      && after.relaunches == before.relaunches + [S.Relaunch(r, before.procs[p].background)]
      && OnlyActed(before, after, p)
  {
    ActIsAlone(Run(w, es), p, RecordsPrefs);
    longer := Then(w, es, Acts(p, RecordsPrefs));
    longer := RecordedAnswers(w, longer, p, r);
  }

  /** A process that has recorded the request relaunches. */
  lemma RecordedAnswers(w: World, es: seq<Event>, p: nat, r: nat) returns (longer: seq<Event>)
    requires p < |Run(w, es).procs|
    requires var c := Run(w, es).procs[p]; c.phase in {Recorded, Stopped} && c.restartLastSession == Some(r)
    ensures es <= longer && (NoCrash(es) ==> NoCrash(longer))
    ensures var before, after := Run(w, es), Run(w, longer);
      && after.relaunches == before.relaunches + [S.Relaunch(r, before.procs[p].background)]
      && OnlyActed(before, after, p)
  {
    longer := es;
    if Run(w, es).procs[p].phase == Recorded {
      longer := RecordedStops(w, es, p);
    }
    longer := StoppedAnswers(w, longer, p, r);
  }

  lemma StoppedAnswers(w: World, es: seq<Event>, p: nat, r: nat) returns (longer: seq<Event>)
    requires p < |Run(w, es).procs|
    requires var c := Run(w, es).procs[p]; c.phase == Stopped && c.restartLastSession == Some(r)
    ensures es <= longer && (NoCrash(es) ==> NoCrash(longer))
    ensures var before, after := Run(w, es), Run(w, longer);
      && after.relaunches == before.relaunches + [S.Relaunch(r, before.procs[p].background)]
      && OnlyActed(before, after, p)
  {
    ActIsAlone(Run(w, es), p, Relaunches);
    longer := Then(w, es, Acts(p, Relaunches));
  }

  lemma RecordedStops(w: World, es: seq<Event>, p: nat) returns (longer: seq<Event>)
    requires p < |Run(w, es).procs| && Run(w, es).procs[p].phase == Recorded
    ensures es <= longer && (NoCrash(es) ==> NoCrash(longer))
    ensures var before, after := Run(w, es), Run(w, longer);
      && OnlyActed(before, after, p) && after.relaunches == before.relaunches
      && after.procs[p] == before.procs[p].(phase := Stopped, task := NoTask)
  {
    longer := TaskEnds(w, es, p);
    ActIsAlone(Run(w, longer), p, Commits);
    longer := Then(w, longer, Acts(p, Commits));
  }

  /** A FILE task that has begun ends. */
  lemma TaskEnds(w: World, es: seq<Event>, p: nat) returns (longer: seq<Event>)
    requires p < |Run(w, es).procs| && Alive(Run(w, es).procs[p])
    ensures es <= longer && (NoCrash(es) ==> NoCrash(longer))
    ensures var before, after := Run(w, es), Run(w, longer);
      && OnlyActed(before, after, p) && after.relaunches == before.relaunches
      && !after.procs[p].task.HasRead?
      && after.procs[p] == before.procs[p].(task := after.procs[p].task)
  {
    longer := es;
    if Run(w, es).procs[p].task.HasRead? {
      ActIsAlone(Run(w, es), p, DeletesFile);
      longer := Then(w, es, Acts(p, DeletesFile));
    }
  }

  // ---------------------------------------------------------------- withdrawn requests

  /** ... nor one that was withdrawn. */
  ghost predicate LoadsAloneAndStanding(w: World) {
    LoadsAlone(w) && (w.disk.restart.Some? ==> w.disk.restart.value !in w.cancelled)
  }

  ghost predicate StandingRequestsLoadedAlone(es: seq<Event>) {
    es == [] ||
    var before := es[..|es| - 1];
    && StandingRequestsLoadedAlone(before)
    && (es[|es| - 1] == Launches ==> LoadsAloneAndStanding(Run(START, before)))
  }

  ghost predicate WithdrawnInv(w: World) {
    && (forall p, r :: 0 <= p < |w.procs| && HoldsRequest(w.procs[p], r) ==> r !in w.cancelled)
    && (forall i :: 0 <= i < |w.relaunches| ==> w.relaunches[i].request !in w.cancelled)
    && (forall c :: c in w.cancelled ==> c < w.requests)
  }

  /** A withdrawal concerns a request that only the withdrawing process held. */
  lemma WithdrawalIsAlone(w: World, p: nat, a: Action, r: nat)
    requires RequestInv(w) && Can(w, p, a) && r in Withdrawn(w, p, a)
    ensures HoldsRequest(w.procs[p], r) && RequestOk(w, r)
    ensures !RequestHeld(Step(w, Acts(p, a)), r)
  {
    var w' := Step(w, Acts(p, a));
    assert HoldsRequest(w.procs[p], r) && ProcessRequestsOk(w, w.procs[p]);
    forall q | 0 <= q < |w'.procs|
      ensures !HoldsRequest(w'.procs[q], r)
    {
      if q == p {
        assert !HoldsRequest(Moved(w, p, a), r);
      }
    }
  }

  lemma StepKeepsWithdrawnInv(w: World, e: Event)
    requires RequestInv(w) && WithdrawnInv(w) && (e == Launches ==> LoadsAloneAndStanding(w))
    ensures WithdrawnInv(Step(w, e))
  {
    var w' := Step(w, e);
    if e.Acts? && Can(w, e.p, e.action) {
      forall q, r | 0 <= q < |w'.procs| && HoldsRequest(w'.procs[q], r)
        ensures r !in w'.cancelled
      {
        if q == e.p {
          MovedHolds(w, e.p, e.action, r);
        }
        if r in Withdrawn(w, e.p, e.action) {
          WithdrawalIsAlone(w, e.p, e.action, r);
        }
      }
      RelaunchesStand(w, e.p, e.action);
    }
  }

  lemma RelaunchesStand(w: World, p: nat, a: Action)
    requires RequestInv(w) && WithdrawnInv(w) && Can(w, p, a)
    ensures var w' := Step(w, Acts(p, a));
      && (forall i :: 0 <= i < |w'.relaunches| ==> w'.relaunches[i].request !in w'.cancelled)
      && (forall c :: c in w'.cancelled ==> c < w'.requests)
  {
    var c := w.procs[p];
    assert ProcessRequestsOk(w, c);
    if a.Relaunches? && c.restartLastSession.Some? {
      assert HoldsRequest(c, c.restartLastSession.value);
    }
    forall r | r in Withdrawn(w, p, a)
      ensures RequestOk(w, r)
    {
      WithdrawalIsAlone(w, p, a, r);
    }
  }

  /** If moreover no process loads a withdrawn request, none is ever answered. */
  lemma {:induction false} WithdrawnNeverRelaunched(es: seq<Event>)
    requires StandingRequestsLoadedAlone(es)
    ensures RequestInv(Run(START, es)) && WithdrawnInv(Run(START, es))
    ensures var w := Run(START, es);
      forall i :: 0 <= i < |w.relaunches| ==> w.relaunches[i].request !in w.cancelled
    decreases es
  {
    if es != [] {
      var before, e := es[..|es| - 1], es[|es| - 1];
      WithdrawnNeverRelaunched(before);
      StepKeepsRequestInv(Run(START, before), e);
      StepKeepsWithdrawnInv(Run(START, before), e);
    }
  }

  /** Any other load can lead to the relaunch of a withdrawn request, without a crash. */
  lemma WithdrawnCanBeAnswered(w: World, r: nat) returns (es: seq<Event>)
    requires w.disk.restart == Some(r) && (r in w.cancelled || RequestHeld(w, r))
    ensures es != [] && es[0] == Launches && NoCrash(es)
    ensures r in Run(w, es).cancelled && Answered(Run(w, es).relaunches, r)
  {
    es := Then(w, [], Launches);
    if r in w.cancelled {
      es := LaunchedAnswers(w, es, r);
    } else {
      var p :| 0 <= p < |w.procs| && HoldsRequest(w.procs[p], r);
      if Alive(w.procs[p]) && w.procs[p].memory.restart == Some(r) {
        es := Then(w, es, Acts(p, SetsTryingToQuit(false)));
        es := LaunchedAnswers(w, es, r);
      } else {
        es := Then(w, es, Acts(|w.procs|, SetsTryingToQuit(false)));
        es := RecordedAnswers(w, es, p, r);
      }
    }
    var relaunches := Run(w, es).relaunches;
    assert relaunches[|relaunches| - 1].request == r;
  }

  /** Such states are reached by ordinary runs. */
  lemma SharedRequestIsReachable(withdraw: bool) returns (es: seq<Event>)
    ensures var w := Run(START, es);
      && |w.procs| == 1 && w.disk.restart == Some(0)
      && if withdraw then 0 in w.cancelled else HoldsRequest(w.procs[0], 0)
    ensures NoCrash(es)
  {
    es := Then(START, [], Launches);
    es := Then(START, es, Acts(0, ReadsLastShutdownInfo));
    es := Then(START, es, Acts(0, RequestsRestart));
    es := Then(START, es, Acts(0, Flushes));
    if withdraw {
      es := Then(START, es, Acts(0, SetsTryingToQuit(false)));
    }
  }

  // ---------------------------------------------------------------- reports

  /** A recorded triple is well formed and belongs to a session up to `limit`. */
  predicate TripleOk(t: S.Triple, limit: int) {
    t.processes >= 0 && (S.Measured(t) ==> 0 < t.session <= limit && 0 <= t.slow <= t.processes)
  }

  predicate ProcessTriplesOk(c: Process, p: nat) {
    && TripleOk(c.memory.triple, if c.phase == Starting then p else p + 1)
    && (c.phase == Up ==> !S.Measured(c.memory.triple))
    && (c.task != NoTask ==> TripleOk(c.task.triple, p))
    && (c.phase == Starting ==> c.task == NoTask)
    && TripleOk(c.own, p + 1)
  }

  predicate ReportOk(r: S.Report) {
    && S.Measured(r.triple) && 0 <= r.triple.slow <= r.triple.processes
    && r.file.milliseconds != 0 && 0 < r.triple.session < r.reporter
  }

  ghost predicate TriplesInv(w: World) {
    && TripleOk(w.disk.triple, |w.procs|)
    && (forall p :: 0 <= p < |w.procs| ==> ProcessTriplesOk(w.procs[p], p))
    && (forall i :: 0 <= i < |w.reports| ==> ReportOk(w.reports[i]))
  }

  lemma ActKeepsProcessTriples(w: World, p: nat, a: Action)
    requires Can(w, p, a) && ProcessTriplesOk(w.procs[p], p)
    ensures ProcessTriplesOk(Moved(w, p, a), p)
  {
  }

  lemma StepKeepsTriplesInv(w: World, e: Event)
    requires TriplesInv(w)
    ensures TriplesInv(Step(w, e))
  {
    if e.Acts? && Can(w, e.p, e.action) {
      assert ProcessTriplesOk(w.procs[e.p], e.p);
      ActKeepsProcessTriples(w, e.p, e.action);
    }
  }

  /** Over any number of overlapping processes: every report has a positive process count (so
      that the time per process is defined) of which the slow ones are part, a non-zero time,
      and the triple of an earlier session. */
  lemma {:induction false} ReportsAreSound(es: seq<Event>)
    ensures TriplesInv(Run(START, es))
    ensures forall i :: 0 <= i < |Run(START, es).reports| ==> ReportOk(Run(START, es).reports[i])
    decreases es
  {
    if es != [] {
      ReportsAreSound(es[..|es| - 1]);
      StepKeepsTriplesInv(Run(START, es[..|es| - 1]), es[|es| - 1]);
    }
  }

  // ---------------------------------------------------------------- triples are reported once

  /** A process that can still report the triple of session `k`. */
  predicate HoldsTriple(c: Process, k: nat) {
    || (c.phase == Starting && S.Measured(c.memory.triple) && c.memory.triple.session == k)
    || (Alive(c) && c.task.Posted? && S.Measured(c.task.triple) && c.task.triple.session == k)
    || (Alive(c) && WillReport(c.task) && c.task.triple.session == k)
  }

  ghost predicate TripleHeld(w: World, k: nat) {
    exists p :: 0 <= p < |w.procs| && HoldsTriple(w.procs[p], k)
  }

  ghost predicate TripleReported(w: World, k: nat) {
    exists i :: 0 <= i < |w.reports| && w.reports[i].triple.session == k
  }

  ghost predicate TriplesDistinct(reports: seq<S.Report>) {
    forall i, j :: 0 <= i < j < |reports| ==> reports[i].triple.session != reports[j].triple.session
  }

  /** The process that is starting does not load a measured triple that was reported, or that
      another process has still to report. */
  ghost predicate LoadsUnreported(w: World) {
    S.Measured(w.disk.triple) ==>
      !TripleReported(w, w.disk.triple.session) && !TripleHeld(w, w.disk.triple.session)
  }

  ghost predicate TriplesLoadedUnreported(es: seq<Event>) {
    es == [] ||
    var before := es[..|es| - 1];
    TriplesLoadedUnreported(before) && (es[|es| - 1] == Launches ==> LoadsUnreported(Run(START, before)))
  }

  ghost predicate TripleOnceInv(w: World) {
    && (forall p, q, k :: 0 <= p < q < |w.procs| && HoldsTriple(w.procs[p], k) ==> !HoldsTriple(w.procs[q], k))
    && (forall p, k :: 0 <= p < |w.procs| && HoldsTriple(w.procs[p], k) ==> !TripleReported(w, k))
    && TriplesDistinct(w.reports)
  }

  lemma MovedHoldsTriple(w: World, p: nat, a: Action, k: nat)
    requires Can(w, p, a) && ProcessTriplesOk(w.procs[p], p) && HoldsTriple(Moved(w, p, a), k)
    ensures HoldsTriple(w.procs[p], k)
    ensures !(a.DeletesFile? && WillReport(w.procs[p].task))
  {
  }

  lemma ActKeepsTripleHolders(w: World, p: nat, a: Action)
    requires TriplesInv(w) && TripleOnceInv(w) && Can(w, p, a)
    ensures var w' := Step(w, Acts(p, a));
      forall i, j, k :: 0 <= i < j < |w'.procs| && HoldsTriple(w'.procs[i], k) ==> !HoldsTriple(w'.procs[j], k)
  {
    var w' := Step(w, Acts(p, a));
    assert ProcessTriplesOk(w.procs[p], p);
    forall i, j, k | 0 <= i < j < |w'.procs| && HoldsTriple(w'.procs[i], k)
      ensures !HoldsTriple(w'.procs[j], k)
    {
      if p in {i, j} && HoldsTriple(Moved(w, p, a), k) {
        MovedHoldsTriple(w, p, a, k);
      }
    }
  }

  /** A process that still holds a triple after a step held it before, and the step did not
      report it. */
  lemma StillUnreported(w: World, p: nat, a: Action, q: nat, k: nat)
    requires TriplesInv(w) && TripleOnceInv(w) && Can(w, p, a) && q < |w.procs|
    requires HoldsTriple(Step(w, Acts(p, a)).procs[q], k)
    ensures !TripleReported(Step(w, Acts(p, a)), k)
  {
    var reported := Reported(w, p, a);
    assert ProcessTriplesOk(w.procs[p], p);
    assert reported != [] ==> HoldsTriple(w.procs[p], reported[0].triple.session);
    if q == p {
      MovedHoldsTriple(w, p, a, k);
    }
    assert HoldsTriple(w.procs[q], k) && !TripleReported(w, k);
    assert reported != [] ==> reported[0].triple.session != k;
  }

  lemma ActKeepsTripleOnce(w: World, p: nat, a: Action)
    requires TriplesInv(w) && TripleOnceInv(w) && Can(w, p, a)
    ensures TripleOnceInv(Step(w, Acts(p, a)))
  {
    var w' := Step(w, Acts(p, a));
    ActKeepsTripleHolders(w, p, a);
    forall q, k | 0 <= q < |w'.procs| && HoldsTriple(w'.procs[q], k)
      ensures !TripleReported(w', k)
    {
      StillUnreported(w, p, a, q, k);
    }
    var t := w.procs[p].task;
    if Reported(w, p, a) != [] {
      assert HoldsTriple(w.procs[p], t.triple.session) && !TripleReported(w, t.triple.session);
    }
  }

  /** If every process loads only such triples, the triple of a session is reported at most
      once. */
  lemma {:induction false} TripleReportedOnce(es: seq<Event>)
    requires TriplesLoadedUnreported(es)
    ensures TripleOnceInv(Run(START, es)) && TriplesDistinct(Run(START, es).reports)
    decreases es
  {
    if es != [] {
      var before, e := es[..|es| - 1], es[|es| - 1];
      var w := Run(START, before);
      TripleReportedOnce(before);
      ReportsAreSound(before);
      if e == Launches {
        LaunchKeepsTripleOnce(w);
      } else if Can(w, e.p, e.action) {
        ActKeepsTripleOnce(w, e.p, e.action);
      }
    }
  }

  lemma LaunchKeepsTripleOnce(w: World)
    requires TripleOnceInv(w) && LoadsUnreported(w)
    ensures TripleOnceInv(Step(w, Launches))
  {
    var w' := Step(w, Launches);
    assert forall k :: TripleReported(w', k) <==> TripleReported(w, k);
  }

  /** Between two states the processes of the first did nothing and nothing was reported. */
  ghost predicate OthersActed(before: World, after: World) {
    && |before.procs| <= |after.procs|
    && (forall p :: 0 <= p < |before.procs| ==> after.procs[p] == before.procs[p])
    && after.reports == before.reports
  }

  /** One more process starts and posts its FILE task. */
  lemma LaunchPosts(w: World, es: seq<Event>) returns (longer: seq<Event>)
    ensures es <= longer && |es| < |longer| && longer[|es|] == Launches && (NoCrash(es) ==> NoCrash(longer))
    ensures var before, after := Run(w, es), Run(w, longer);
      var q := |before.procs|;
      && OthersActed(before, after) && |after.procs| == q + 1
      && after.procs[q] == NewProcess(before.disk).(phase := Up, task := Posted(before.disk.triple),
                                                    memory := before.disk.(triple := S.NO_TRIPLE))
  {
    longer := Then(w, es, Launches);
    longer := Then(w, longer, Acts(|Run(w, es).procs|, ReadsLastShutdownInfo));
  }

  /** One more process comes and goes and leaves a time, and its triple, behind. */
  lemma AnotherLeavesTime(w: World, es: seq<Event>) returns (longer: seq<Event>)
    ensures es <= longer && (NoCrash(es) ==> NoCrash(longer))
    ensures var before, after := Run(w, es), Run(w, longer);
      && OthersActed(before, after)
      && |after.procs| == |before.procs| + 1 && after.procs[|before.procs|].phase == Down
      && after.file == Some(S.TimeFile(1, |before.procs| + 1))
      && after.disk.triple == S.Triple(S.BrowserExit, 1, 0, |before.procs| + 1)
  {
    var p := |Run(w, es).procs|;
    var before := Run(w, es);
    longer := LaunchPosts(w, es);
    var posted := Run(w, longer);
    longer := UpShutsDown(w, longer, p);
    var shutting := Run(w, longer);
    LastActed(before, posted, shutting);
    longer := UpLeavesTime(w, longer, p);
    LastActed(before, shutting, Run(w, longer));
  }

  /** What the last of the processes does leaves the others alone. */
  lemma LastActed(before: World, middle: World, after: World)
    requires OthersActed(before, middle) && |middle.procs| == |before.procs| + 1 == |after.procs|
    requires after.procs[..|before.procs|] == middle.procs[..|before.procs|] && after.reports == middle.reports
    ensures OthersActed(before, after)
  {
    forall p | 0 <= p < |before.procs|
      ensures after.procs[p] == before.procs[p]
    {
      assert after.procs[p] == after.procs[..|before.procs|][p] == middle.procs[..|before.procs|][p];
    }
  }

  lemma UpShutsDown(w: World, es: seq<Event>, p: nat) returns (longer: seq<Event>)
    requires p < |Run(w, es).procs|
    requires var c := Run(w, es).procs[p]; c.phase == Up && c.own == S.NO_TRIPLE
    ensures es <= longer && (NoCrash(es) ==> NoCrash(longer))
    ensures var before, after := Run(w, es), Run(w, longer);
      && after.procs == before.procs[p := before.procs[p].(own := S.Triple(S.BrowserExit, 1, 0, p + 1))]
      && after.reports == before.reports
  {
    longer := Then(w, es, Acts(p, ShutdownStarts(S.BrowserExit, [true])));
    assert S.CountSlow([true]) == S.CountSlow([]);
  }

  lemma UpLeavesTime(w: World, es: seq<Event>, p: nat) returns (longer: seq<Event>)
    requires |Run(w, es).procs| == p + 1
    requires var c := Run(w, es).procs[p]; c.phase == Up && c.task.Posted? && S.Measured(c.own)
    ensures es <= longer && (NoCrash(es) ==> NoCrash(longer))
    ensures var before, after := Run(w, es), Run(w, longer);
      && |after.procs| == p + 1 && after.procs[..p] == before.procs[..p] && after.procs[p].phase == Down
      && after.reports == before.reports
      && after.file == Some(S.TimeFile(1, p + 1)) && after.disk.triple == before.procs[p].own
  {
    longer := Then(w, es, Acts(p, RecordsPrefs));
    var c := Run(w, es).procs[p];
    c := c.(phase := Recorded, memory := S.Prefs(c.own, None), restartLastSession := c.memory.restart);
    assert Run(w, longer) == Run(w, es).(procs := Run(w, es).procs[p := c]);
    longer := RecordedLeavesTime(w, longer, p);
  }

  lemma RecordedLeavesTime(w: World, es: seq<Event>, p: nat) returns (longer: seq<Event>)
    requires p < |Run(w, es).procs|
    requires var c := Run(w, es).procs[p];
      c.phase == Recorded && c.task.Posted? && S.Measured(c.own) && c.memory.triple == c.own
    ensures es <= longer && (NoCrash(es) ==> NoCrash(longer))
    ensures var before, after := Run(w, es), Run(w, longer);
      && after.procs == before.procs[p := before.procs[p].(phase := Down, task := NoTask)]
      && after.reports == before.reports
      && after.file == Some(S.TimeFile(1, p + 1)) && after.disk.triple == before.procs[p].own
  {
    longer := Then(w, es, Acts(p, Commits));
    var c := Run(w, es).procs[p].(phase := Stopped, task := NoTask);
    assert Run(w, longer).procs == Run(w, es).procs[p := c] && Run(w, longer).disk.triple == c.own;
    longer := StoppedLeavesTime(w, longer, p);
  }

  lemma StoppedLeavesTime(w: World, es: seq<Event>, p: nat) returns (longer: seq<Event>)
    requires p < |Run(w, es).procs|
    requires var c := Run(w, es).procs[p]; c.phase == Stopped && S.Measured(c.own)
    ensures es <= longer && (NoCrash(es) ==> NoCrash(longer))
    ensures var before, after := Run(w, es), Run(w, longer);
      && after.procs == before.procs[p := before.procs[p].(phase := Down)]
      && after.reports == before.reports && after.disk == before.disk
      && after.file == Some(S.TimeFile(1, p + 1))
  {
    longer := Then(w, es, Acts(p, Relaunches));
    assert Run(w, longer).procs == Run(w, es).procs[p := Run(w, es).procs[p].(phase := Leaving)];
    longer := Then(w, longer, Acts(p, WritesTime(1)));
  }

  /** Any other load can lead to two reports of the session. */
  lemma TripleReportedTwice(w: World, k: nat) returns (es: seq<Event>)
    requires TriplesInv(w) && S.Measured(w.disk.triple) && w.disk.triple.session == k
    requires TripleReported(w, k) || TripleHeld(w, k)
    ensures es != [] && es[0] == Launches && NoCrash(es)
    ensures !TriplesDistinct(Run(w, es).reports)
  {
    var q := |w.procs|;
    es := LaunchPosts(w, []);
    if TripleReported(w, k) {
      es := AnotherLeavesTime(w, es);
      es := PostedReports(w, es, q);
      var i :| 0 <= i < |w.reports| && w.reports[i].triple.session == k;
      SameSessionTwice(Run(w, es).reports, i, |w.reports|);
    } else {
      var p :| 0 <= p < q && HoldsTriple(w.procs[p], k);
      assert ProcessTriplesOk(w.procs[p], p);
      es := BothReport(w, es, p, q, k);
      SameSessionTwice(Run(w, es).reports, |w.reports|, |w.reports| + 1);
    }
  }

  lemma SameSessionTwice(reports: seq<S.Report>, i: nat, j: nat)
    requires i < j < |reports| && reports[i].triple.session == reports[j].triple.session
    ensures !TriplesDistinct(reports)
  {
  }

  /** A FILE task with a measured triple finds a non-zero time. */
  lemma PostedReads(w: World, es: seq<Event>, p: nat) returns (longer: seq<Event>)
    requires Can(Run(w, es), p, ReadsFile)
    ensures es <= longer && (NoCrash(es) ==> NoCrash(longer))
    ensures var before, after := Run(w, es), Run(w, longer);
      && after.procs == before.procs[p := before.procs[p].(task := HasRead(before.procs[p].task.triple, before.file))]
      && after.file == before.file && after.reports == before.reports
  {
    longer := Then(w, es, Acts(p, ReadsFile));
  }

  lemma ReadReports(w: World, es: seq<Event>, p: nat) returns (longer: seq<Event>)
    requires Can(Run(w, es), p, DeletesFile) && WillReport(Run(w, es).procs[p].task)
    ensures es <= longer && (NoCrash(es) ==> NoCrash(longer))
    ensures var before, after := Run(w, es), Run(w, longer);
      var t := before.procs[p].task;
      && after.procs == before.procs[p := before.procs[p].(task := NoTask)]
      && after.reports == before.reports + [S.Report(t.triple, t.time.value, p + 1)]
  {
    longer := Then(w, es, Acts(p, DeletesFile));
  }

  lemma PostedReports(w: World, es: seq<Event>, p: nat) returns (longer: seq<Event>)
    requires Can(Run(w, es), p, ReadsFile) && S.Measured(Run(w, es).procs[p].task.triple)
    requires Run(w, es).file.Some? && Run(w, es).file.value.milliseconds != 0
    ensures es <= longer && (NoCrash(es) ==> NoCrash(longer))
    ensures var before, after := Run(w, es), Run(w, longer);
      after.reports == before.reports + [S.Report(before.procs[p].task.triple, before.file.value, p + 1)]
  {
    longer := PostedReads(w, es, p);
    longer := ReadReports(w, longer, p);
  }

  /** A process that holds the triple gets as far as its FILE task. */
  lemma HolderPosts(w: World, es: seq<Event>, p: nat, k: nat) returns (longer: seq<Event>)
    requires p < |Run(w, es).procs| && HoldsTriple(Run(w, es).procs[p], k)
    requires Run(w, es).procs[p].phase == Starting <==> Run(w, es).procs[p].task == NoTask
    ensures es <= longer && (NoCrash(es) ==> NoCrash(longer))
    ensures var before, after := Run(w, es), Run(w, longer);
      && OnlyActed(before, after, p) && after.reports == before.reports
      && HoldsTriple(after.procs[p], k) && after.procs[p].task != NoTask && Alive(after.procs[p])
      && after.procs[p].phase != Starting
  {
    longer := es;
    if Run(w, es).procs[p].task == NoTask {
      longer := Then(w, es, Acts(p, ReadsLastShutdownInfo));
    }
  }

  /** Two FILE threads with the triple of session `k`: both read the same time before either
      deletes it. */
  lemma BothReport(w: World, es: seq<Event>, p: nat, q: nat, k: nat) returns (longer: seq<Event>)
    requires p < |Run(w, es).procs| && q < |Run(w, es).procs| && p != q
    requires HoldsTriple(Run(w, es).procs[p], k)
    requires Run(w, es).procs[p].phase == Starting <==> Run(w, es).procs[p].task == NoTask
    requires var c := Run(w, es).procs[q];
      Alive(c) && c.task.Posted? && S.Measured(c.task.triple) && c.task.triple.session == k
    ensures es <= longer && (NoCrash(es) ==> NoCrash(longer))
    ensures var before, after := Run(w, es).reports, Run(w, longer).reports;
      && |after| == |before| + 2
      && after[|before|].triple.session == after[|before| + 1].triple.session == k
  {
    longer := HolderPosts(w, es, p, k);
    longer := AnotherLeavesTime(w, longer);
    longer := BothRead(w, longer, p, q, k);
    longer := ReadReports(w, longer, q);
    longer := ReadReports(w, longer, p);
  }

  lemma BothRead(w: World, es: seq<Event>, p: nat, q: nat, k: nat) returns (longer: seq<Event>)
    requires p < |Run(w, es).procs| && q < |Run(w, es).procs| && p != q
    requires Run(w, es).file.Some? && Run(w, es).file.value.milliseconds != 0
    requires var c := Run(w, es).procs[p];
      Alive(c) && HoldsTriple(c, k) && c.task != NoTask && c.phase != Starting
    requires var c := Run(w, es).procs[q];
      Alive(c) && c.task.Posted? && S.Measured(c.task.triple) && c.task.triple.session == k
    ensures es <= longer && (NoCrash(es) ==> NoCrash(longer))
    ensures var before, after := Run(w, es), Run(w, longer);
      && |after.procs| == |before.procs| && after.reports == before.reports
      && Alive(after.procs[p]) && WillReport(after.procs[p].task) && after.procs[p].task.triple.session == k
      && Alive(after.procs[q]) && WillReport(after.procs[q].task) && after.procs[q].task.triple.session == k
  {
    longer := PostedReads(w, es, q);
    if Run(w, longer).procs[p].task.Posted? {
      longer := PostedReads(w, longer, p);
    }
  }

  /** A second process that starts before the first has flushed loads the same triple. */
  lemma SharedTripleIsReachable() returns (es: seq<Event>)
    ensures var w := Run(START, es);
      S.Measured(w.disk.triple) && w.disk.triple.session == 1 && TripleHeld(w, 1) && NoCrash(es)
  {
    es := AnotherLeavesTime(START, []);
    es := Then(START, es, Launches);
    assert HoldsTriple(Run(START, es).procs[1], 1);
  }

  // ---------------------------------------------------------------- times are reported once

  /** A process that will report the time of session `k`. */
  predicate HoldsTime(c: Process, k: nat) {
    Alive(c) && WillReport(c.task) && c.task.time.value.session == k
  }

  ghost predicate TimeHeld(w: World, k: nat) {
    exists p :: 0 <= p < |w.procs| && HoldsTime(w.procs[p], k)
  }

  ghost predicate TimeReported(w: World, k: nat) {
    exists i :: 0 <= i < |w.reports| && w.reports[i].file.session == k
  }

  ghost predicate TimesDistinct(reports: seq<S.Report>) {
    forall i, j :: 0 <= i < j < |reports| ==> reports[i].file.session != reports[j].file.session
  }

  /** A FILE thread does not read, to report it, a time that another one has read and will
      report. */
  ghost predicate ReadsAlone(w: World, p: nat) {
    Can(w, p, ReadsFile) && WillReport(Moved(w, p, ReadsFile).task) ==> !TimeHeld(w, w.file.value.session)
  }

  ghost predicate TimesReadAlone(es: seq<Event>) {
    es == [] ||
    var before, e := es[..|es| - 1], es[|es| - 1];
    TimesReadAlone(before) && (e.Acts? && e.action == ReadsFile ==> ReadsAlone(Run(START, before), e.p))
  }

  /** The process of session `k` is gone. */
  predicate Over(w: World, k: nat) { 0 < k <= |w.procs| && w.procs[k - 1].phase == Down }

  ghost predicate TimeOnceInv(w: World) {
    && (forall p, q, k :: 0 <= p < q < |w.procs| && HoldsTime(w.procs[p], k) ==> !HoldsTime(w.procs[q], k))
    && (forall p, k :: 0 <= p < |w.procs| && HoldsTime(w.procs[p], k) ==> Over(w, k) && !TimeReported(w, k))
    && (w.file.Some? ==> Over(w, w.file.value.session) && !TimeReported(w, w.file.value.session))
    && (forall i :: 0 <= i < |w.reports| ==> Over(w, w.reports[i].file.session))
    && TimesDistinct(w.reports)
  }

  lemma MovedHoldsTime(w: World, p: nat, a: Action, k: nat)
    requires Can(w, p, a) && HoldsTime(Moved(w, p, a), k)
    ensures HoldsTime(w.procs[p], k) || (a == ReadsFile && w.file.Some? && w.file.value.session == k)
    ensures !a.DeletesFile?
  {
  }

  lemma ActKeepsTimeHolders(w: World, p: nat, a: Action)
    requires TimeOnceInv(w) && Can(w, p, a) && (a == ReadsFile ==> ReadsAlone(w, p))
    ensures var w' := Step(w, Acts(p, a));
      forall i, j, k :: 0 <= i < j < |w'.procs| && HoldsTime(w'.procs[i], k) ==> !HoldsTime(w'.procs[j], k)
  {
    var w' := Step(w, Acts(p, a));
    forall i, j, k | 0 <= i < j < |w'.procs| && HoldsTime(w'.procs[i], k)
      ensures !HoldsTime(w'.procs[j], k)
    {
      if p in {i, j} && HoldsTime(Moved(w, p, a), k) {
        MovedHoldsTime(w, p, a, k);
      }
    }
  }

  lemma StillUnreportedTime(w: World, p: nat, a: Action, q: nat, k: nat)
    requires TimeOnceInv(w) && Can(w, p, a) && q < |w.procs|
    requires HoldsTime(Step(w, Acts(p, a)).procs[q], k)
    ensures var w' := Step(w, Acts(p, a)); Over(w', k) && !TimeReported(w', k)
  {
    var t := w.procs[p].task;
    if q == p {
      MovedHoldsTime(w, p, a, k);
    }
    assert Over(w, k) && !TimeReported(w, k);
    if Reported(w, p, a) != [] {
      assert HoldsTime(w.procs[p], t.time.value.session) && HoldsTime(w.procs[q], k);
    }
  }

  lemma ActKeepsFileUnreported(w: World, p: nat, a: Action)
    requires TimeOnceInv(w) && Can(w, p, a)
    ensures var w' := Step(w, Acts(p, a));
      w'.file.Some? ==> Over(w', w'.file.value.session) && !TimeReported(w', w'.file.value.session)
  {
    var w' := Step(w, Acts(p, a));
    if a.WritesTime? {
      assert !Over(w, p + 1) && w'.reports == w.reports;
    } else if !a.DeletesFile? {
      assert w'.file == w.file && w'.reports == w.reports;
    }
  }

  lemma ActKeepsTimeReports(w: World, p: nat, a: Action)
    requires TimeOnceInv(w) && Can(w, p, a)
    ensures var w' := Step(w, Acts(p, a));
      TimesDistinct(w'.reports) && forall i :: 0 <= i < |w'.reports| ==> Over(w', w'.reports[i].file.session)
  {
    var w' := Step(w, Acts(p, a));
    var t := w.procs[p].task;
    assert forall k :: Over(w, k) ==> Over(w', k);
    if Reported(w, p, a) != [] {
      assert HoldsTime(w.procs[p], t.time.value.session) && !TimeReported(w, t.time.value.session);
    }
  }

  lemma ActKeepsTimeOnce(w: World, p: nat, a: Action)
    requires TimeOnceInv(w) && Can(w, p, a) && (a == ReadsFile ==> ReadsAlone(w, p))
    ensures TimeOnceInv(Step(w, Acts(p, a)))
  {
    var w' := Step(w, Acts(p, a));
    ActKeepsTimeHolders(w, p, a);
    ActKeepsFileUnreported(w, p, a);
    ActKeepsTimeReports(w, p, a);
    forall q, k | 0 <= q < |w'.procs| && HoldsTime(w'.procs[q], k)
      ensures Over(w', k) && !TimeReported(w', k)
    {
      StillUnreportedTime(w, p, a, q, k);
    }
  }

  /** If every FILE thread reads alone, a measured time is reported at most once. */
  lemma {:induction false} TimeReportedOnce(es: seq<Event>)
    requires TimesReadAlone(es)
    ensures TimeOnceInv(Run(START, es)) && TimesDistinct(Run(START, es).reports)
    decreases es
  {
    if es != [] {
      var before, e := es[..|es| - 1], es[|es| - 1];
      var w := Run(START, before);
      TimeReportedOnce(before);
      if e == Launches {
        LaunchKeepsTimeOnce(w);
      } else if Can(w, e.p, e.action) {
        ActKeepsTimeOnce(w, e.p, e.action);
      }
    }
  }

  lemma LaunchKeepsTimeOnce(w: World)
    requires TimeOnceInv(w)
    ensures TimeOnceInv(Step(w, Launches))
  {
    var w' := Step(w, Launches);
    assert forall k :: Over(w, k) ==> Over(w', k);
    assert forall k :: TimeReported(w', k) <==> TimeReported(w, k);
  }

  /** Any other read can lead to two reports of the time. */
  lemma TimeReportedTwice(w: World, p: nat, q: nat) returns (es: seq<Event>)
    requires Can(w, q, ReadsFile) && WillReport(Moved(w, q, ReadsFile).task)
    requires p < |w.procs| && HoldsTime(w.procs[p], w.file.value.session)
    ensures es != [] && es[0] == Acts(q, ReadsFile) && NoCrash(es)
    ensures !TimesDistinct(Run(w, es).reports)
  {
    es := Then(w, [], Acts(q, ReadsFile));
    es := ReadReports(w, es, p);
    es := ReadReports(w, es, q);
    var reports, n := Run(w, es).reports, |w.reports|;
    assert reports[n].file.session == reports[n + 1].file.session;
  }

  // ---------------------------------------------------------------- without overlap

  predicate AllDown(w: World) { forall p :: 0 <= p < |w.procs| ==> w.procs[p].phase == Down }

  /** A process starts only when all others are gone. */
  predicate OneAtATime(es: seq<Event>) {
    es == [] ||
    var before := es[..|es| - 1];
    OneAtATime(before) && (es[|es| - 1] == Launches ==> AllDown(Run(START, before)))
  }

  /** Such runs load every request alone, so they relaunch at most once for each. */
  lemma {:induction false} OneAtATimeLoadsAlone(es: seq<Event>)
    requires OneAtATime(es)
    ensures RequestsLoadedAlone(es) && AnsweredOnce(Run(START, es).relaunches)
    decreases es
  {
    if es != [] {
      OneAtATimeLoadsAlone(es[..|es| - 1]);
      assert AllDown(Run(START, es[..|es| - 1])) ==> LoadsAlone(Run(START, es[..|es| - 1]));
    }
    OneRelaunchPerRequest(es);
  }

  /** The phase of a process between two events of ShutdownSessions. */
  function SessionPhase(phase: Phase): S.Phase {
    match phase
    case Starting => S.Starting
    case Up => S.Up
    case Down => S.Down
    case _ => S.Recorded
  }

  /** The last process, as ShutdownSessions sees it. */
  function View(w: World): S.System {
    if w.procs == [] then
      S.System(S.Down, 0, w.disk, w.file, S.NO_PREFS, None, S.NO_TRIPLE, None, false,
               w.requests, w.cancelled, w.reports, w.relaunches)
    else
      var c := w.procs[|w.procs| - 1];
      S.System(SessionPhase(c.phase), |w.procs|, w.disk, w.file, c.memory,
               if c.task.Posted? then Some(c.task.triple) else None,
               c.own, c.restartLastSession, c.background,
               w.requests, w.cancelled, w.reports, w.relaunches)
  }

  /** Between two events of ShutdownSessions nobody is inside a split one. */
  predicate Between(w: World) {
    && (forall p :: 0 <= p < |w.procs| - 1 ==> w.procs[p].phase == Down)
    && (w.procs != [] ==>
          var c := w.procs[|w.procs| - 1];
          && c.phase in {Starting, Up, Recorded, Down} && !c.task.HasRead?
          && (!Alive(c) ==> c.task == NoTask))
  }

  /** The actions that make up an event of a session. */
  function Actions(e: S.Event): seq<Action> {
    match e
    case Launches => []
    case ReadsLastShutdownInfo => [ReadsLastShutdownInfo]
    case ReadsLastShutdownFile => [ReadsFile, DeletesFile]
    case ShutdownStarts(kind, fastExits) => [ShutdownStarts(kind, fastExits)]
    case RequestsRestart => [RequestsRestart]
    case SetsTryingToQuit(quitting) => [SetsTryingToQuit(quitting)]
    case SetsRestartInBackground(b) => [SetsRestartInBackground(b)]
    case Flushes => [Flushes]
    case RecordsPrefs => [RecordsPrefs]
    case StopsThreads(ms) => [Commits, Relaunches, WritesTime(ms)]
    case Crashes => [Crashes]
  }

  lemma LaunchIsSessionLaunch(w: World)
    requires Between(w) && View(w).phase == S.Down
    ensures Between(Step(w, Launches)) && View(Step(w, Launches)) == S.Step(View(w), S.Launches)
    ensures AllDown(w)
  {
  }

  lemma ViewAfter(w: World, a: Action)
    requires w.procs != [] && Can(w, |w.procs| - 1, a)
    ensures var p := |w.procs| - 1;
      var c, w' := Moved(w, p, a), Step(w, Acts(p, a));
      View(w') == S.System(SessionPhase(c.phase), |w.procs|, DiskAfter(w, p, a), FileAfter(w, p, a), c.memory,
                           if c.task.Posted? then Some(c.task.triple) else None,
                           c.own, c.restartLastSession, c.background,
                           w'.requests, w'.cancelled, w'.reports, w'.relaunches)
  {
  }

  lemma SimpleActKeepsBetween(w: World, e: S.Event)
    requires Between(w) && S.Enabled(View(w), e) && |Actions(e)| == 1
    ensures w.procs != [] && Can(w, |w.procs| - 1, Actions(e)[0])
    ensures Between(Step(w, Acts(|w.procs| - 1, Actions(e)[0])))
  {
  }

  lemma SimpleActIsSessionStep(w: World, e: S.Event)
    requires Between(w) && S.Enabled(View(w), e) && |Actions(e)| == 1
    ensures w.procs != [] && Between(Step(w, Acts(|w.procs| - 1, Actions(e)[0])))
    ensures View(Step(w, Acts(|w.procs| - 1, Actions(e)[0]))) == S.Step(View(w), e)
  {
    SimpleActKeepsBetween(w, e);
    ViewAfter(w, Actions(e)[0]);
    ActMatches(w, e);
  }

  lemma ActMatches(w: World, e: S.Event)
    requires w.procs != [] && S.Enabled(View(w), e) && |Actions(e)| == 1
    requires Can(w, |w.procs| - 1, Actions(e)[0])
    ensures var p := |w.procs| - 1;
      var a := Actions(e)[0];
      var c, w', s := Moved(w, p, a), Step(w, Acts(p, a)), S.Step(View(w), e);
      && s.phase == SessionPhase(c.phase) && s.session == |w.procs|
      && s.disk == DiskAfter(w, p, a) && s.file == FileAfter(w, p, a) && s.memory == c.memory
      && s.pendingRead == (if c.task.Posted? then Some(c.task.triple) else None)
      && s.own == c.own && s.restartLastSession == c.restartLastSession && s.background == c.background
      && s.requests == w'.requests && s.cancelled == w'.cancelled
      && s.reports == w'.reports && s.relaunches == w'.relaunches
  {
  }

  lemma FileActsAreSessionStep(w: World)
    requires Between(w) && S.Enabled(View(w), S.ReadsLastShutdownFile)
    ensures w.procs != []
    ensures var p := |w.procs| - 1;
      var w' := Step(Step(w, Acts(p, ReadsFile)), Acts(p, DeletesFile));
      Between(w') && View(w') == S.Step(View(w), S.ReadsLastShutdownFile)
  {
    var p := |w.procs| - 1;
    var c := w.procs[p];
    var w1 := Step(w, Acts(p, ReadsFile));
    assert w1 == w.(procs := w.procs[p := c.(task := HasRead(c.task.triple, w.file))]);
  }

  lemma StopActsAreSessionStep(w: World, ms: int)
    requires Between(w) && S.Enabled(View(w), S.StopsThreads(ms))
    ensures w.procs != []
    ensures var p := |w.procs| - 1;
      var w' := Step(Step(Step(w, Acts(p, Commits)), Acts(p, Relaunches)), Acts(p, WritesTime(ms)));
      Between(w') && View(w') == S.Step(View(w), S.StopsThreads(ms))
  {
    StopActs(w, ms);
  }

  /** The three steps at once. */
  lemma StopActs(w: World, ms: int)
    requires w.procs != [] && Can(w, |w.procs| - 1, Commits)
    ensures var p := |w.procs| - 1;
      var c := w.procs[p];
      Step(Step(Step(w, Acts(p, Commits)), Acts(p, Relaunches)), Acts(p, WritesTime(ms)))
      == World(w.procs[p := c.(phase := Down, task := NoTask)], c.memory,
               if S.Measured(c.own) then Some(S.TimeFile(ms, p + 1)) else w.file,
               w.requests, w.cancelled, w.reports,
               w.relaunches + if c.restartLastSession.Some?
                              then [S.Relaunch(c.restartLastSession.value, c.background)] else [])
  {
    var p := |w.procs| - 1;
    var c := w.procs[p].(phase := Stopped, task := NoTask);
    var w1 := Step(w, Acts(p, Commits));
    assert w1 == w.(procs := w.procs[p := c], disk := c.memory);
    var w2 := Step(w1, Acts(p, Relaunches));
    assert w2 == w1.(procs := w.procs[p := c.(phase := Leaving)], relaunches := w2.relaunches);
  }

  /** Every run of ShutdownSessions is a run of processes one at a time. */
  lemma {:induction false} SessionsAreProcesses(es: seq<S.Event>) returns (ws: seq<Event>)
    ensures OneAtATime(ws) && Between(Run(START, ws))
    ensures View(Run(START, ws)) == S.Run(S.START, es)
    decreases es
  {
    ws := [];
    if es != [] {
      var e := es[|es| - 1];
      ws := SessionsAreProcesses(es[..|es| - 1]);
      var w := Run(START, ws);
      var p := |w.procs| - 1;
      if S.Enabled(View(w), e) {
        match e
        case Launches =>
          LaunchIsSessionLaunch(w);
          ws := ThenAlone(ws, Launches);
        case ReadsLastShutdownFile =>
          FileActsAreSessionStep(w);
          ws := ThenAlone(ws, Acts(p, ReadsFile));
          ws := ThenAlone(ws, Acts(p, DeletesFile));
        case StopsThreads(ms) =>
          StopActsAreSessionStep(w, ms);
          ws := ThenAlone(ws, Acts(p, Commits));
          ws := ThenAlone(ws, Acts(p, Relaunches));
          ws := ThenAlone(ws, Acts(p, WritesTime(ms)));
        case _ =>
          SimpleActIsSessionStep(w, e);
          ws := ThenAlone(ws, Acts(p, Actions(e)[0]));
      }
    }
  }

  lemma ThenAlone(es: seq<Event>, e: Event) returns (longer: seq<Event>)
    requires OneAtATime(es) && (e == Launches ==> AllDown(Run(START, es)))
    ensures OneAtATime(longer) && Run(START, longer) == Step(Run(START, es), e)
  {
    longer := Then(START, es, e);
    assert longer[..|es|] == es;
  }
}
