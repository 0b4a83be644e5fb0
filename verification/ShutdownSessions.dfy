/**
 What one browser session leaves for the next: the shutdown triple in the local-state
 preferences, the measured shutdown time in a file, and the request to restart
 (browser/browser_shutdown.cc, with the flag computation in browser/chrome_browser_main.cc).

 The model runs over any number of sessions, one after another; OverlappingSessions is about
 processes that run at the same time.  Preferences live in memory and reach the disk
 at unpredictable moments; a session may crash at any point, losing what was not flushed.
 Every value carries the number of the session that wrote it, and every restart request a
 number of its own, so that reports and relaunches can be traced to their origin.
 */
module ShutdownSessions {
  import opened Wrappers

  datatype ShutdownType = NotValid | WindowClose | BrowserExit | EndSession

  /** The three shutdown preferences. */
  datatype Triple = Triple(kind: ShutdownType, processes: int, slow: int, session: nat)

  /** The restart preference: which request set it, if it is set. */
  datatype Prefs = Prefs(triple: Triple, restart: Option<nat>)

  /** chrome_shutdown_ms.txt. */
  datatype TimeFile = TimeFile(milliseconds: int, session: nat)

  datatype Report = Report(triple: Triple, file: TimeFile, reporter: nat)

  datatype Relaunch = Relaunch(request: nat, inBackground: bool)

  datatype Phase =
    | Down        // no browser process
    | Starting    // before ReadLastShutdownInfo
    | Up          // until ShutdownPreThreadsStop
    | Recorded    // RecordShutdownInfoPrefs has run

  datatype System = System(
    phase: Phase,
    session: nat,                // number of the current, or of the last, session
    // persistent
    disk: Prefs,
    file: Option<TimeFile>,
    // of the current process
    memory: Prefs,               // the preference service
    pendingRead: Option<Triple>, // ReadLastShutdownFile posted to the FILE thread
    own: Triple,                 // g_shutdown_type and the two counters
    restartLastSession: Option<nat>,
    background: bool,            // BackgroundModeManager::should_restart_in_background
    // observations
    requests: nat,               // restart requests made so far
    cancelled: set<nat>,         // requests withdrawn by SetTryingToQuit(false)
    reports: seq<Report>,
    relaunches: seq<Relaunch>)

  const NO_TRIPLE := Triple(NotValid, 0, 0, 0)
  const NO_PREFS := Prefs(NO_TRIPLE, None)

  const START := System(Down, 0, NO_PREFS, None, NO_PREFS, None, NO_TRIPLE, None, false, 0, {}, [], [])

  datatype Event =
    | Launches
    | ReadsLastShutdownInfo
    | ReadsLastShutdownFile                                       // on the FILE thread
    | ShutdownStarts(kind: ShutdownType, fastExits: seq<bool>)    // one entry a renderer host
    | RequestsRestart
    | SetsTryingToQuit(quitting: bool)
    | SetsRestartInBackground(background: bool)
    | Flushes                                                     // preferences reach the disk
    | RecordsPrefs                                                // RecordShutdownInfoPrefs
    | StopsThreads(milliseconds: int)                             // ShutdownPostThreadsStop
    | Crashes

  function CountSlow(fastExits: seq<bool>): (n: nat)
    ensures n <= |fastExits|
  {
    if fastExits == [] then 0
    else CountSlow(fastExits[..|fastExits| - 1]) + if fastExits[|fastExits| - 1] then 0 else 1
  }

  /** Whether there is something to report about this shutdown. */
  predicate Measured(t: Triple) { t.kind != NotValid && t.processes > 0 }

  predicate Reportable(t: Triple, f: TimeFile) {
    t.kind != NotValid && f.milliseconds != 0 && t.processes != 0
  }

  // ---------------------------------------------------------------- the operations

  /** `OnShutdownStarting`: the first call wins. */
  function ShutdownStarted(own: Triple, kind: ShutdownType, fastExits: seq<bool>, session: nat): Triple {
    if own.kind != NotValid then own
    else Triple(kind, |fastExits|, CountSlow(fastExits), session)
  }

  function FileRead(s: System, t: Triple): System {
    var s' := s.(pendingRead := None, file := None);
    if s.file.Some? && Reportable(t, s.file.value)
    then s'.(reports := s.reports + [Report(t, s.file.value, s.session)])
    else s'
  }

  function PrefsRecorded(s: System): System {
    s.(phase := Recorded,
       memory := Prefs(if Measured(s.own) then s.own else s.memory.triple, None),
       restartLastSession := s.memory.restart)
  }

  /** The pending commit completes before the threads are gone; a file task that has not run
      by then is dropped; then the relaunch, and last the file. */
  function ThreadsStopped(s: System, milliseconds: int): System {
    s.(phase := Down,
       disk := s.memory,
       pendingRead := None,
       relaunches := s.relaunches + (if s.restartLastSession.Some?
                                     then [Relaunch(s.restartLastSession.value, s.background)] else []),
       file := if Measured(s.own) then Some(TimeFile(milliseconds, s.session)) else s.file)
  }

  function Launched(s: System): System {
    s.(phase := Starting, session := s.session + 1, memory := s.disk, pendingRead := None,
       own := NO_TRIPLE, restartLastSession := None, background := false)
  }

  function QuittingSet(s: System, quitting: bool): System {
    if quitting then s
    else s.(memory := s.memory.(restart := None), background := false,
            cancelled := s.cancelled + if s.memory.restart.Some? then {s.memory.restart.value} else {})
  }

  predicate Enabled(s: System, e: Event) {
    match e
    case Launches => s.phase == Down
    case ReadsLastShutdownInfo => s.phase == Starting
    case ReadsLastShutdownFile => s.phase != Down && s.pendingRead.Some?
    case ShutdownStarts(kind, _) => s.phase != Down && kind != NotValid
    case RecordsPrefs => s.phase == Up
    case StopsThreads(_) => s.phase == Recorded
    case _ => s.phase != Down
  }

  function Step(s: System, e: Event): System {
    if !Enabled(s, e) then s else
    match e
    case Launches => Launched(s)
    case ReadsLastShutdownInfo =>
      s.(phase := Up, pendingRead := Some(s.memory.triple), memory := s.memory.(triple := NO_TRIPLE))
    case ReadsLastShutdownFile => FileRead(s, s.pendingRead.value)
    case ShutdownStarts(kind, fastExits) => s.(own := ShutdownStarted(s.own, kind, fastExits, s.session))
    case RequestsRestart => s.(memory := s.memory.(restart := Some(s.requests)), requests := s.requests + 1)
    case SetsTryingToQuit(quitting) => QuittingSet(s, quitting)
    case SetsRestartInBackground(b) => s.(background := b)
    case Flushes => s.(disk := s.memory)
    case RecordsPrefs => PrefsRecorded(s)
    case StopsThreads(ms) => ThreadsStopped(s, ms)
    case Crashes => s.(phase := Down, pendingRead := None)
  }

  function Run(s: System, es: seq<Event>): System
    decreases es
  {
    if es == [] then s else Step(Run(s, es[..|es| - 1]), es[|es| - 1])
  }

  lemma RunSnoc(s: System, es: seq<Event>, e: Event)
    ensures Run(s, es + [e]) == Step(Run(s, es), e)
  {
    assert (es + [e])[..|es|] == es;
  }

  // ---------------------------------------------------------------- the triple of a session

  /** Later calls of `OnShutdownStarting` never change the triple of the session. */
  lemma {:induction false} FirstShutdownWins(s: System, es: seq<Event>)
    requires s.own.kind != NotValid && s.phase != Down
    requires Launches !in es
    ensures Run(s, es).own == s.own
    decreases es
  {
    if es != [] {
      assert es == es[..|es| - 1] + [es[|es| - 1]];
      FirstShutdownWins(s, es[..|es| - 1]);
    }
  }

  lemma {:induction false} CountSlowCounts(fastExits: seq<bool>)
    ensures CountSlow(fastExits) == multiset(fastExits)[false]
  {
    if fastExits != [] {
      CountSlowCounts(fastExits[..|fastExits| - 1]);
      assert fastExits == fastExits[..|fastExits| - 1] + [fastExits[|fastExits| - 1]];
    }
  }

  /** The first start of a shutdown records its type, all renderer processes, and those that
      could not exit fast; later ones record nothing. */
  lemma ShutdownIsRecorded(own: Triple, kind: ShutdownType, fastExits: seq<bool>, session: nat)
    ensures ShutdownStarted(own, kind, fastExits, session)
         == if own.kind == NotValid then Triple(kind, |fastExits|, multiset(fastExits)[false], session) else own
  {
    CountSlowCounts(fastExits);
  }

  /** A whole session: it shuts down in order, with `fastExits` telling which renderer
      processes exited fast, and needs `milliseconds` for that. */
  function WholeSession(kind: ShutdownType, fastExits: seq<bool>, milliseconds: int): seq<Event> {
    [Launches, ReadsLastShutdownInfo, ShutdownStarts(kind, fastExits), RecordsPrefs, StopsThreads(milliseconds)]
  }

  lemma SessionLeaves(s: System, kind: ShutdownType, fastExits: seq<bool>, milliseconds: int)
    requires s.phase == Down && kind != NotValid && fastExits != []
    ensures var after := Run(s, WholeSession(kind, fastExits, milliseconds));
      && after.phase == Down && after.session == s.session + 1 && after.reports == s.reports
      && after.disk == Prefs(Triple(kind, |fastExits|, multiset(fastExits)[false], s.session + 1), None)
      && after.file == Some(TimeFile(milliseconds, s.session + 1))
      && after.relaunches == s.relaunches + if s.disk.restart.Some? then [Relaunch(s.disk.restart.value, false)] else []
  {
    RunFive(s, Launches, ReadsLastShutdownInfo, ShutdownStarts(kind, fastExits), RecordsPrefs,
            StopsThreads(milliseconds));
    ShutdownIsRecorded(NO_TRIPLE, kind, fastExits, s.session + 1);
    var up := Step(Step(Step(s, Launches), ReadsLastShutdownInfo), ShutdownStarts(kind, fastExits));
    assert up.phase == Up && up.own == Triple(kind, |fastExits|, multiset(fastExits)[false], s.session + 1);
    assert up.memory == Prefs(NO_TRIPLE, s.disk.restart) && up.session == s.session + 1 && up.reports == s.reports;
    assert Step(up, RecordsPrefs).restartLastSession == s.disk.restart;
  }

  /** Whatever came before, a session with renderer processes that shuts down in order is
      reported by the next one, with its own type, counts and time, and the file is gone. */
  lemma SessionIsReported(s: System, kind: ShutdownType, fastExits: seq<bool>, milliseconds: int)
    requires s.phase == Down && kind != NotValid && fastExits != [] && milliseconds != 0
    ensures var after := Run(Run(s, WholeSession(kind, fastExits, milliseconds)),
                             [Launches, ReadsLastShutdownInfo, ReadsLastShutdownFile]);
      && after.reports == s.reports
           + [Report(Triple(kind, |fastExits|, multiset(fastExits)[false], s.session + 1),
                     TimeFile(milliseconds, s.session + 1), s.session + 2)]
      && after.file == None && !Measured(after.memory.triple)
  {
    SessionLeaves(s, kind, fastExits, milliseconds);
    var left := Run(s, WholeSession(kind, fastExits, milliseconds));
    assert Measured(left.disk.triple);
    RunThree(left, Launches, ReadsLastShutdownInfo, ReadsLastShutdownFile);
  }

  lemma RunThree(s: System, a: Event, b: Event, c: Event)
    ensures Run(s, [a, b, c]) == Step(Step(Step(s, a), b), c)
  {
    assert [a, b, c] == [a, b] + [c] && [a, b] == [a] + [b] && [a] == [] + [a];
    RunSnoc(s, [], a);
    RunSnoc(s, [a], b);
    RunSnoc(s, [a, b], c);
  }

  /** A report is made only of a measured triple and a non-zero time; in any case the file is
      gone once the FILE thread has looked for it. */
  lemma FileIsReadOnce(s: System)
    requires Enabled(s, ReadsLastShutdownFile)
    ensures var after := Step(s, ReadsLastShutdownFile);
      var t := s.pendingRead.value;
      && after.file == None && after.pendingRead == None
      && after.reports == s.reports
           + if s.file.Some? && s.file.value.milliseconds != 0 && t.kind != NotValid && t.processes != 0
             then [Report(t, s.file.value, s.session)] else []
  {
    assert s.reports + [] == s.reports;
  }

  // ---------------------------------------------------------------- reports

  ghost predicate WasReported(reports: seq<Report>, session: nat) {
    exists i :: 0 <= i < |reports| && reports[i].triple.session == session
  }

  /** A recorded triple is well formed, belongs to a session up to `limit`, and if it has
      been reported already there is no file it could be reported with again. */
  ghost predicate TripleOk(s: System, t: Triple, limit: int) {
    && t.processes >= 0
    && (Measured(t) ==>
          && 0 < t.session <= limit
          && 0 <= t.slow <= t.processes
          && (WasReported(s.reports, t.session) ==> s.file.None?))
  }

  ghost predicate TriplesOk(s: System) {
    && TripleOk(s, s.disk.triple, s.session)
    && (s.phase == Starting ==> TripleOk(s, s.memory.triple, s.session - 1) && s.pendingRead.None?)
    && (s.phase in {Up, Recorded} ==>
          && TripleOk(s, s.memory.triple, s.session)
          && (Measured(s.memory.triple) ==> s.memory.triple.session == s.session))
    && (s.pendingRead.Some? ==> TripleOk(s, s.pendingRead.value, s.session - 1))
    && (s.phase != Down ==>
          && TripleOk(s, s.own, s.session)
          && (Measured(s.own) ==> s.own.session == s.session)
          && s.session > 0)
  }

  ghost predicate FileOk(s: System) {
    s.file.Some? ==>
      0 < s.file.value.session <= if s.phase == Down then s.session else s.session - 1
  }

  ghost predicate ReportOk(s: System, r: Report) {
    && r.triple.kind != NotValid && r.triple.processes > 0
    && 0 <= r.triple.slow <= r.triple.processes
    && r.file.milliseconds != 0
    && 0 < r.triple.session < r.reporter <= s.session
    && 0 < r.file.session < r.reporter
    && (s.file.Some? ==> r.file.session < s.file.value.session)
  }

  ghost predicate Distinct(reports: seq<Report>) {
    forall i, j :: 0 <= i < j < |reports| ==>
      && reports[i].triple.session != reports[j].triple.session
      && reports[i].file.session != reports[j].file.session
  }

  ghost predicate ReportsOk(s: System) {
    && (forall r :: r in s.reports ==> ReportOk(s, r))
    && Distinct(s.reports)
  }

  ghost predicate Inv(s: System) { TriplesOk(s) && FileOk(s) && ReportsOk(s) }

  lemma OwnSessionUnreported(s: System)
    requires Inv(s) && s.phase != Down
    ensures !WasReported(s.reports, s.session)
  {
    forall i | 0 <= i < |s.reports|
      ensures s.reports[i].triple.session != s.session
    {
      assert s.reports[i] in s.reports;
    }
  }

  lemma DistinctSnoc(reports: seq<Report>, r: Report)
    requires Distinct(reports) && !WasReported(reports, r.triple.session)
    requires forall q :: q in reports ==> q.file.session != r.file.session
    ensures Distinct(reports + [r])
  {
    forall i | 0 <= i < |reports|
      ensures reports[i].triple.session != r.triple.session && reports[i].file.session != r.file.session
    {
      assert reports[i] in reports;
    }
  }

  lemma ReportsSnocOk(s: System, s': System, r: Report)
    requires ReportsOk(s) && s.file.Some? && r.file == s.file.value
    requires s'.session == s.session && s'.file.None? && s'.reports == s.reports + [r]
    requires !WasReported(s.reports, r.triple.session) && ReportOk(s', r)
    ensures ReportsOk(s')
  {
    forall q | q in s.reports
      ensures ReportOk(s', q) && q.file.session != r.file.session
    {
      assert ReportOk(s, q);
    }
    DistinctSnoc(s.reports, r);
  }

  lemma FileReadKeepsInv(s: System)
    requires Inv(s) && Enabled(s, ReadsLastShutdownFile)
    ensures Inv(Step(s, ReadsLastShutdownFile))
  {
    var t := s.pendingRead.value;
    var s' := FileRead(s, t);
    assert TriplesOk(s');
    if s.file.Some? && Reportable(t, s.file.value) {
      ReportsSnocOk(s, s', Report(t, s.file.value, s.session));
    }
  }

  lemma StopKeepsInv(s: System, milliseconds: int)
    requires Inv(s) && s.phase == Recorded
    ensures Inv(Step(s, StopsThreads(milliseconds)))
  {
    OwnSessionUnreported(s);
  }

  lemma ShutdownStartKeepsInv(s: System, kind: ShutdownType, fastExits: seq<bool>)
    requires Inv(s) && s.phase != Down
    ensures Inv(Step(s, ShutdownStarts(kind, fastExits)))
  {
    OwnSessionUnreported(s);
  }

  /** The events that leave the reports and the file alone and record no new triple. */
  lemma QuietStepKeepsInv(s: System, e: Event)
    requires Inv(s) && Enabled(s, e)
    requires !e.ReadsLastShutdownFile? && !e.StopsThreads? && !e.ShutdownStarts?
    ensures Inv(Step(s, e))
  {
    assert Step(s, e).reports == s.reports && Step(s, e).file == s.file;
    assert TriplesOk(Step(s, e));
    assert FileOk(Step(s, e));
    forall r | r in s.reports
      ensures ReportOk(Step(s, e), r)
    {
      assert ReportOk(s, r);
    }
  }

  lemma StepKeepsInv(s: System, e: Event)
    requires Inv(s)
    ensures Inv(Step(s, e))
  {
    if !Enabled(s, e) {
    } else if e.ReadsLastShutdownFile? {
      FileReadKeepsInv(s);
    } else if e.StopsThreads? {
      StopKeepsInv(s, e.milliseconds);
    } else if e.ShutdownStarts? {
      ShutdownStartKeepsInv(s, e.kind, e.fastExits);
    } else {
      QuietStepKeepsInv(s, e);
    }
  }

  lemma {:induction false} RunKeepsInv(s: System, es: seq<Event>)
    requires Inv(s)
    ensures Inv(Run(s, es))
    decreases es
  {
    if es != [] {
      RunKeepsInv(s, es[..|es| - 1]);
      StepKeepsInv(Run(s, es[..|es| - 1]), es[|es| - 1]);
    }
  }

  /** Over any sequence of sessions, with crashes and late preference writes anywhere: the
      shutdown triple of a session is reported at most once and never by that session, a
      measured time is reported at most once, and every report has a positive process count
      (so that the time per process is defined) of which the slow ones are part. */
  lemma ReportsAreSound(es: seq<Event>)
    ensures var s := Run(START, es);
      && Distinct(s.reports)
      && forall r :: r in s.reports ==>
           && Measured(r.triple) && 0 <= r.triple.slow <= r.triple.processes
           && r.file.milliseconds != 0
           && r.triple.session < r.reporter && r.file.session < r.reporter
  {
    RunKeepsInv(START, es);
    forall r | r in Run(START, es).reports
      ensures ReportOk(Run(START, es), r)
    {
    }
  }

  // ---------------------------------------------------------------- which time goes with which triple

  /** A triple and a time that will be reported together. */
  predicate WouldReport(t: Triple, file: Option<TimeFile>) {
    Measured(t) && file.Some? && file.value.milliseconds != 0
  }

  /** The triple on disk and the file belong to the same session, if they will be reported. */
  predicate Paired(t: Triple, file: Option<TimeFile>) {
    WouldReport(t, file) ==> file.value.session == t.session
  }

  /** No session of the run crashes between its preferences, with its own triple, reaching
      the disk and the non-zero time of an earlier session going away. */
  predicate CrashesPaired(es: seq<Event>) {
    es == [] ||
    var before := es[..|es| - 1];
    && CrashesPaired(before)
    && (es[|es| - 1] == Crashes && Run(START, before).phase != Down ==>
          Paired(Run(START, before).disk.triple, Run(START, before).file))
  }

  ghost predicate PairingInv(s: System) {
    && (s.phase == Down ==> Paired(s.disk.triple, s.file))
    && (s.phase == Starting ==> Paired(s.memory.triple, s.file))
    && (s.phase in {Up, Recorded} ==>
          if s.pendingRead.Some? then Paired(s.pendingRead.value, s.file) else s.file.None?)
    && (s.phase == Up ==> !Measured(s.memory.triple))
    && (s.phase == Recorded && Measured(s.memory.triple) ==> s.own == s.memory.triple)
    && (forall r :: r in s.reports ==> r.triple.session == r.file.session)
  }

  lemma StepKeepsPairing(s: System, e: Event)
    requires Inv(s) && PairingInv(s)
    requires e == Crashes && s.phase != Down ==> Paired(s.disk.triple, s.file)
    ensures PairingInv(Step(s, e))
  {
  }

  /** If every crash of the run is of that kind, each reported time is the time of the
      session whose triple it is reported with. */
  lemma {:induction false} ReportsPaired(es: seq<Event>)
    requires CrashesPaired(es)
    ensures PairingInv(Run(START, es))
    ensures forall r :: r in Run(START, es).reports ==> r.triple.session == r.file.session
    decreases es
  {
    if es != [] {
      var before := es[..|es| - 1];
      ReportsPaired(before);
      RunKeepsInv(START, before);
      StepKeepsPairing(Run(START, before), es[|es| - 1]);
    }
  }

  /** Any other crash does lead to a wrong report: as soon as the next session reads what was
      left, it reports the time of one session with the triple of another. */
  lemma UnpairedCrashMisreports(s: System)
    requires Inv(s) && s.phase != Down
    requires !Paired(s.disk.triple, s.file)
    ensures var after := Run(s, [Crashes, Launches, ReadsLastShutdownInfo, ReadsLastShutdownFile]);
      && after.reports == s.reports + [Report(s.disk.triple, s.file.value, s.session + 1)]
      && s.disk.triple.session != s.file.value.session
  {
    CrashReports(s);
  }

  /** What a crash leaves behind is what the next session reports. */
  lemma CrashReports(s: System)
    requires s.phase != Down && WouldReport(s.disk.triple, s.file)
    ensures Run(s, [Crashes, Launches, ReadsLastShutdownInfo, ReadsLastShutdownFile]).reports
         == s.reports + [Report(s.disk.triple, s.file.value, s.session + 1)]
  {
    var s1 := Step(s, Crashes);
    var s2 := Step(s1, Launches);
    var s3 := Step(s2, ReadsLastShutdownInfo);
    assert s3.pendingRead == Some(s.disk.triple) && s3.file == s.file && s3.reports == s.reports;
    assert s3.session == s.session + 1;
    RunFour(s, Crashes, Launches, ReadsLastShutdownInfo, ReadsLastShutdownFile);
  }

  lemma RunFour(s: System, a: Event, b: Event, c: Event, d: Event)
    ensures Run(s, [a, b, c, d]) == Step(Step(Step(Step(s, a), b), c), d)
  {
    assert [a, b, c, d] == [a, b, c] + [d] && [a, b, c] == [a, b] + [c] && [a, b] == [a] + [b] && [a] == [] + [a];
    RunSnoc(s, [], a);
    RunSnoc(s, [a], b);
    RunSnoc(s, [a, b], c);
    RunSnoc(s, [a, b, c], d);
  }

  /** No session of the run crashes while its successor would find something to report: a
      measured triple on disk next to a non-zero time. */
  predicate CrashesLeaveNoReport(es: seq<Event>) {
    es == [] ||
    var before := es[..|es| - 1];
    && CrashesLeaveNoReport(before)
    && (es[|es| - 1] == Crashes && Run(START, before).phase != Down ==>
          !WouldReport(Run(START, before).disk.triple, Run(START, before).file))
  }

  /** Whatever will be reported is about session `last`. */
  predicate About(t: Triple, file: Option<TimeFile>, last: int) {
    WouldReport(t, file) ==> t.session == file.value.session == last
  }

  ghost predicate PredecessorInv(s: System) {
    && (s.phase == Down ==> About(s.disk.triple, s.file, s.session))
    && (s.phase == Starting ==> About(s.memory.triple, s.file, s.session - 1))
    && (s.pendingRead.Some? ==> About(s.pendingRead.value, s.file, s.session - 1))
    && (s.phase == Up ==> !Measured(s.memory.triple))
    && (s.phase == Recorded && Measured(s.memory.triple) ==> s.own == s.memory.triple)
    && (forall r :: r in s.reports ==> r.triple.session == r.file.session == r.reporter - 1)
  }

  lemma StepKeepsPredecessor(s: System, e: Event)
    requires Inv(s) && PredecessorInv(s)
    requires e == Crashes && s.phase != Down ==> !WouldReport(s.disk.triple, s.file)
    ensures PredecessorInv(Step(s, e))
  {
    if Enabled(s, e) && e.ReadsLastShutdownFile? {
      FileReadKeepsPredecessor(s);
    } else {
      assert Step(s, e).reports == s.reports;
    }
  }

  lemma FileReadKeepsPredecessor(s: System)
    requires Inv(s) && PredecessorInv(s) && Enabled(s, ReadsLastShutdownFile)
    ensures PredecessorInv(Step(s, ReadsLastShutdownFile))
  {
  }

  /** Then every report is about the session just before the reporting one. */
  lemma {:induction false} ReportsAreAboutPredecessor(es: seq<Event>)
    requires CrashesLeaveNoReport(es)
    ensures PredecessorInv(Run(START, es))
    ensures forall r :: r in Run(START, es).reports ==> r.triple.session == r.file.session == r.reporter - 1
    decreases es
  {
    if es != [] {
      var before := es[..|es| - 1];
      ReportsAreAboutPredecessor(before);
      RunKeepsInv(START, before);
      StepKeepsPredecessor(Run(START, before), es[|es| - 1]);
    }
  }

  /** Any other crash breaks that: the next session reports a time from before its
      predecessor. */
  lemma OtherCrashesReportOlderTimes(s: System)
    requires Inv(s) && s.phase != Down
    requires WouldReport(s.disk.triple, s.file)
    ensures var after := Run(s, [Crashes, Launches, ReadsLastShutdownInfo, ReadsLastShutdownFile]);
      && after.reports == s.reports + [Report(s.disk.triple, s.file.value, s.session + 1)]
      && s.file.value.session < s.session
  {
    CrashReports(s);
  }

  // ---------------------------------------------------------------- restarts

  ghost predicate Relaunched(s: System, request: nat) {
    exists i :: 0 <= i < |s.relaunches| && s.relaunches[i].request == request
  }

  /** A pending request has been made and has not been answered. */
  ghost predicate PendingOk(s: System, request: Option<nat>) {
    request.Some? ==> request.value < s.requests && !Relaunched(s, request.value)
  }

  ghost predicate RestartInv(s: System) {
    && PendingOk(s, s.disk.restart)
    && (s.phase != Down ==> PendingOk(s, s.memory.restart) && PendingOk(s, s.restartLastSession))
    && (s.phase in {Starting, Up} ==> s.restartLastSession.None?)
    && (s.phase == Recorded && s.restartLastSession.Some? ==> s.memory.restart != s.restartLastSession)
    && (forall i :: 0 <= i < |s.relaunches| ==> s.relaunches[i].request < s.requests)
    && (forall i, j :: 0 <= i < j < |s.relaunches| ==> s.relaunches[i].request != s.relaunches[j].request)
  }

  lemma StopKeepsRestart(s: System, milliseconds: int)
    requires RestartInv(s) && s.phase == Recorded
    ensures RestartInv(Step(s, StopsThreads(milliseconds)))
  {
  }

  lemma StepKeepsRestart(s: System, e: Event)
    requires RestartInv(s)
    ensures RestartInv(Step(s, e))
  {
    if !Enabled(s, e) {
    } else if e.StopsThreads? {
      StopKeepsRestart(s, e.milliseconds);
    } else if e.RequestsRestart? {
      RequestKeepsRestart(s);
    } else {
      QuietStepKeepsRestart(s, e);
    }
  }

  lemma RequestKeepsRestart(s: System)
    requires RestartInv(s) && s.phase != Down
    ensures RestartInv(Step(s, RequestsRestart))
  {
    assert Step(s, RequestsRestart).relaunches == s.relaunches;
  }

  lemma QuietStepKeepsRestart(s: System, e: Event)
    requires RestartInv(s) && Enabled(s, e) && !e.StopsThreads? && !e.RequestsRestart?
    ensures RestartInv(Step(s, e))
  {
    var s' := Step(s, e);
    assert s'.relaunches == s.relaunches && s'.requests == s.requests;
    assert s'.disk.restart in {s.disk.restart, s.memory.restart};
    assert s'.phase != Down ==> s'.memory.restart in {s.disk.restart, s.memory.restart, None};
  }

  /** Each restart request causes at most one relaunch, whatever crashes. */
  lemma {:induction false} OneRelaunchPerRequest(es: seq<Event>)
    ensures var s := Run(START, es);
      && RestartInv(s)
      && (forall i :: 0 <= i < |s.relaunches| ==> s.relaunches[i].request < s.requests)
      && (forall i, j :: 0 <= i < j < |s.relaunches| ==> s.relaunches[i].request != s.relaunches[j].request)
    decreases es
  {
    if es != [] {
      OneRelaunchPerRequest(es[..|es| - 1]);
      StepKeepsRestart(Run(START, es[..|es| - 1]), es[|es| - 1]);
    }
  }

  /** No session of the run crashes while a withdrawn request is still on disk. */
  predicate CrashesAfterWithdrawal(es: seq<Event>) {
    es == [] ||
    var before := es[..|es| - 1];
    var s := Run(START, before);
    && CrashesAfterWithdrawal(before)
    && (es[|es| - 1] == Crashes && s.disk.restart.Some? ==> s.disk.restart.value !in s.cancelled)
  }

  ghost predicate WithdrawnInv(s: System) {
    && (s.phase == Down && s.disk.restart.Some? ==> s.disk.restart.value !in s.cancelled)
    && (s.phase != Down && s.memory.restart.Some? ==> s.memory.restart.value !in s.cancelled)
    && (s.phase == Recorded && s.restartLastSession.Some? ==> s.restartLastSession.value !in s.cancelled)
    && (forall c :: c in s.cancelled ==> c < s.requests)
    && (forall i :: 0 <= i < |s.relaunches| ==> s.relaunches[i].request !in s.cancelled)
  }

  lemma StepKeepsWithdrawn(s: System, e: Event)
    requires RestartInv(s) && WithdrawnInv(s)
    requires e == Crashes && s.disk.restart.Some? ==> s.disk.restart.value !in s.cancelled
    ensures WithdrawnInv(Step(s, e))
  {
  }

  /** Then a withdrawn request is never answered. */
  lemma {:induction false} WithdrawnNeverRelaunched(es: seq<Event>)
    requires CrashesAfterWithdrawal(es)
    ensures var s := Run(START, es);
      && WithdrawnInv(s)
      && forall i :: 0 <= i < |s.relaunches| ==> s.relaunches[i].request !in s.cancelled
    decreases es
  {
    if es != [] {
      var before := es[..|es| - 1];
      WithdrawnNeverRelaunched(before);
      OneRelaunchPerRequest(before);
      StepKeepsWithdrawn(Run(START, before), es[|es| - 1]);
    }
  }

  /** Any other crash revives it: the next session that shuts down in order relaunches. */
  lemma CrashRevivesWithdrawn(s: System, request: nat, milliseconds: int)
    requires s.phase != Down && s.disk.restart == Some(request) && request in s.cancelled
    ensures var up := Run(s, [Crashes, Launches, ReadsLastShutdownInfo, RecordsPrefs]);
      Step(up, StopsThreads(milliseconds)).relaunches == s.relaunches + [Relaunch(request, false)]
  {
    var s1 := Step(s, Crashes);
    var s2 := Step(s1, Launches);
    var s3 := Step(s2, ReadsLastShutdownInfo);
    var s4 := Step(s3, RecordsPrefs);
    RunFour(s, Crashes, Launches, ReadsLastShutdownInfo, RecordsPrefs);
    assert s4.restartLastSession == Some(request) && s4.relaunches == s.relaunches && !s4.background;
  }

  /** An orderly end of a running session: the pending restart request is answered, in the
      background if that was wished for. */
  function OrderlyEnd(milliseconds: int): seq<Event> { [RecordsPrefs, StopsThreads(milliseconds)] }

  lemma OrderlyEndRelaunches(s: System, milliseconds: int)
    requires s.phase == Up
    ensures var after := Run(s, OrderlyEnd(milliseconds));
      && after.phase == Down && after.disk.restart == None
      && after.relaunches == s.relaunches
           + if s.memory.restart.Some? then [Relaunch(s.memory.restart.value, s.background)] else []
  {
    assert [RecordsPrefs, StopsThreads(milliseconds)] == [] + [RecordsPrefs] + [StopsThreads(milliseconds)];
    RunSnoc(s, [], RecordsPrefs);
    RunSnoc(s, [] + [RecordsPrefs], StopsThreads(milliseconds));
  }

  /** From any running session: a restart request, with the wish for the background, leads to
      one relaunch of that kind. */
  lemma RequestIsAnswered(s: System, background: bool, milliseconds: int)
    requires s.phase == Up
    ensures Run(s, [RequestsRestart, SetsRestartInBackground(background)] + OrderlyEnd(milliseconds)).relaunches
         == s.relaunches + [Relaunch(s.requests, background)]
  {
    var asked := Step(Step(s, RequestsRestart), SetsRestartInBackground(background));
    assert [RequestsRestart, SetsRestartInBackground(background)]
        == [] + [RequestsRestart] + [SetsRestartInBackground(background)];
    RunSnoc(s, [], RequestsRestart);
    RunSnoc(s, [] + [RequestsRestart], SetsRestartInBackground(background));
    RunConcat(s, [RequestsRestart, SetsRestartInBackground(background)], OrderlyEnd(milliseconds));
    OrderlyEndRelaunches(asked, milliseconds);
  }

  /** From any running session: a quit that is cancelled leaves no request to answer; one that
      goes on changes nothing. */
  lemma CancelledQuitForgets(s: System, milliseconds: int)
    requires s.phase == Up
    ensures Run(s, [SetsTryingToQuit(false)] + OrderlyEnd(milliseconds)).relaunches == s.relaunches
    ensures Step(s, SetsTryingToQuit(true)) == s
  {
    var cancelled := Step(s, SetsTryingToQuit(false));
    RunFirst(s, SetsTryingToQuit(false), OrderlyEnd(milliseconds));
    OrderlyEndRelaunches(cancelled, milliseconds);
    assert cancelled.memory.restart == None && cancelled.relaunches == s.relaunches;
  }

  lemma RunFirst(s: System, e: Event, es: seq<Event>)
    ensures Run(s, [e] + es) == Run(Step(s, e), es)
  {
    assert [e] == [] + [e];
    RunSnoc(s, [], e);
    RunConcat(s, [e], es);
  }

  /** It also takes back the wish for the background: a later request relaunches in the
      foreground. */
  lemma CancelledQuitLeavesBackground(s: System, milliseconds: int)
    requires s.phase == Up
    ensures Run(s, [SetsTryingToQuit(false), RequestsRestart] + OrderlyEnd(milliseconds)).relaunches
         == s.relaunches + [Relaunch(s.requests, false)]
  {
    var asked := Step(Step(s, SetsTryingToQuit(false)), RequestsRestart);
    assert [SetsTryingToQuit(false), RequestsRestart] == [] + [SetsTryingToQuit(false)] + [RequestsRestart];
    RunSnoc(s, [], SetsTryingToQuit(false));
    RunSnoc(s, [] + [SetsTryingToQuit(false)], RequestsRestart);
    RunConcat(s, [SetsTryingToQuit(false), RequestsRestart], OrderlyEnd(milliseconds));
    OrderlyEndRelaunches(asked, milliseconds);
  }

  // ---------------------------------------------------------------- both kinds of crash can happen

  lemma RunFive(s: System, a: Event, b: Event, c: Event, d: Event, e: Event)
    ensures Run(s, [a, b, c, d, e]) == Step(Step(Step(Step(Step(s, a), b), c), d), e)
  {
    RunFour(s, a, b, c, d);
    RunSnoc(s, [a, b, c, d], e);
    assert [a, b, c, d, e] == [a, b, c, d] + [e];
  }

  lemma {:induction false} RunConcat(s: System, es: seq<Event>, fs: seq<Event>)
    ensures Run(s, es + fs) == Run(Run(s, es), fs)
    decreases fs
  {
    if fs == [] {
      assert es + fs == es;
    } else {
      var n := |fs| - 1;
      assert es + fs == (es + fs[..n]) + [fs[n]];
      RunSnoc(s, es + fs[..n], fs[n]);
      RunConcat(s, es, fs[..n]);
    }
  }

  lemma FirstSessionLeavesTime(milliseconds: int) returns (s: System)
    ensures s == Run(START, [Launches, ReadsLastShutdownInfo, ShutdownStarts(BrowserExit, [true]), RecordsPrefs,
                             StopsThreads(milliseconds)])
    ensures s.phase == Down && s.session == 1 && s.file == Some(TimeFile(milliseconds, 1))
  {
    RunFive(START, Launches, ReadsLastShutdownInfo, ShutdownStarts(BrowserExit, [true]), RecordsPrefs,
            StopsThreads(milliseconds));
    s := Step(Step(Step(START, Launches), ReadsLastShutdownInfo), ShutdownStarts(BrowserExit, [true]));
    assert Measured(s.own) && s.session == 1;
    s := Step(Step(s, RecordsPrefs), StopsThreads(milliseconds));
  }

  /** A second session that shuts down before the FILE thread got to its read task has its
      own triple on disk next to the first session's time. */
  lemma UnpairedIsReachable(milliseconds: int) returns (es: seq<Event>)
    requires milliseconds != 0
    ensures var s := Run(START, es);
      && s.phase != Down && !Paired(s.disk.triple, s.file) && s.file.value.milliseconds == milliseconds
  {
    var starts := ShutdownStarts(BrowserExit, [true]);
    var s := FirstSessionLeavesTime(milliseconds);
    var second := [Launches, ReadsLastShutdownInfo, starts, RecordsPrefs, Flushes];
    RunFive(s, Launches, ReadsLastShutdownInfo, starts, RecordsPrefs, Flushes);
    var first := [Launches, ReadsLastShutdownInfo, starts, RecordsPrefs, StopsThreads(milliseconds)];
    RunConcat(START, first, second);
    es := first + second;
    var up := Step(Step(Step(s, Launches), ReadsLastShutdownInfo), starts);
    assert Measured(up.own) && up.own.session == 2 && up.file == s.file;
    assert Run(s, second) == Step(Step(up, RecordsPrefs), Flushes);
  }

  /** A request that was written to disk and then withdrawn in memory only. */
  lemma WithdrawnOnDiskIsReachable()
    ensures var s := Run(START, [Launches, ReadsLastShutdownInfo, RequestsRestart, Flushes, SetsTryingToQuit(false)]);
      s.phase != Down && s.disk.restart == Some(0) && 0 in s.cancelled
  {
    RunFive(START, Launches, ReadsLastShutdownInfo, RequestsRestart, Flushes, SetsTryingToQuit(false));
    var s := Step(Step(Step(START, Launches), ReadsLastShutdownInfo), RequestsRestart);
    assert s.memory.restart == Some(0) && s.phase == Up;
  }

  // ---------------------------------------------------------------- the code, in place

  const NO_FLAGS: bv8 := 0
  const RESTART_LAST_SESSION: bv8 := 1
  const RESTART_IN_BACKGROUND: bv8 := 2

  /** The globals of browser_shutdown.cc, the preference service and the disk, with the
      members of ChromeBrowserMainParts that carry values across the shutdown steps. */
  class BrowserShutdown {
    var phase: Phase
    var session: nat
    var disk: Prefs
    var file: Option<TimeFile>
    var memory: Prefs
    var pendingRead: Option<Triple>
    var own: Triple
    var restartLastSession: Option<nat>
    var background: bool
    var requests: nat
    var cancelled: set<nat>
    var reports: seq<Report>
    var relaunches: seq<Relaunch>

    function State(): System
      reads this
    {
      System(phase, session, disk, file, memory, pendingRead, own, restartLastSession, background,
             requests, cancelled, reports, relaunches)
    }

    constructor ()
      ensures State() == START
    {
      phase, session, disk, file, memory, pendingRead := Down, 0, NO_PREFS, None, NO_PREFS, None;
      own, restartLastSession, background, requests := NO_TRIPLE, None, false, 0;
      cancelled, reports, relaunches := {}, [], [];
    }

    method OnShutdownStarting(kind: ShutdownType, fastExits: seq<bool>)
      requires phase != Down && kind != NotValid
      modifies this`own
      ensures State() == Step(old(State()), ShutdownStarts(kind, fastExits))
      ensures own == if old(own).kind == NotValid then Triple(kind, |fastExits|, multiset(fastExits)[false], session)
                     else old(own)
    {
      ShutdownIsRecorded(own, kind, fastExits, session);
      if own.kind != NotValid {
        return;
      }
      var processes, slow := 0, 0;
      var i := 0;
      while i < |fastExits|
        invariant 0 <= i <= |fastExits| && processes == i
        invariant slow == CountSlow(fastExits[..i])
      {
        processes := processes + 1;
        assert fastExits[..i + 1][..i] == fastExits[..i];
        if !fastExits[i] {
          slow := slow + 1;
        }
        i := i + 1;
      }
      assert fastExits[..|fastExits|] == fastExits;
      own := Triple(kind, processes, slow, session);
    }

    method ReadLastShutdownInfo()
      requires phase == Starting
      modifies this
      ensures State() == Step(old(State()), ReadsLastShutdownInfo)
    {
      var last := memory.triple;
      memory := memory.(triple := NO_TRIPLE);
      pendingRead := Some(last);
      phase := Up;
    }

    /** Runs on the FILE thread; whatever it reports, the file is gone afterwards. */
    method ReadLastShutdownFile()
      requires phase != Down && pendingRead.Some?
      modifies this
      ensures State() == Step(old(State()), ReadsLastShutdownFile)
    {
      var t := pendingRead.value;
      pendingRead := None;
      var shutdownMs := if file.Some? then file.value.milliseconds else 0;
      var read := file;
      file := None;
      if t.kind == NotValid || shutdownMs == 0 || t.processes == 0 {
        return;
      }
      reports := reports + [Report(t, read.value, session)];
    }

    method SetTryingToQuit(quitting: bool)
      requires phase != Down
      modifies this
      ensures State() == Step(old(State()), SetsTryingToQuit(quitting))
    {
      if quitting {
        return;
      }
      if memory.restart.Some? {
        cancelled := cancelled + {memory.restart.value};
      }
      memory := memory.(restart := None);
      background := false;
    }

    method RecordShutdownInfoPrefs() returns (restart: Option<nat>)
      requires phase == Up
      modifies this`memory
      ensures memory == PrefsRecorded(old(State())).memory
      ensures restart == old(memory).restart
    {
      if own.kind != NotValid && own.processes > 0 {
        memory := memory.(triple := own);
      }
      restart := None;
      if memory.restart.Some? {
        restart := memory.restart;
        memory := memory.(restart := None);
      }
    }

    method ShutdownPreThreadsStop()
      requires phase == Up
      modifies this
      ensures State() == Step(old(State()), RecordsPrefs)
    {
      restartLastSession := RecordShutdownInfoPrefs();
      phase := Recorded;
    }

    /** The flags computed by `PostDestroyThreads`: the background bit never stands alone. */
    method RestartFlags() returns (flags: bv8)
      ensures flags & RESTART_LAST_SESSION != 0 <==> restartLastSession.Some?
      ensures flags & RESTART_IN_BACKGROUND != 0 <==> restartLastSession.Some? && background
      ensures flags & RESTART_IN_BACKGROUND != 0 ==> flags & RESTART_LAST_SESSION != 0
    {
      flags := if restartLastSession.Some? then RESTART_LAST_SESSION else NO_FLAGS;
      if flags != 0 {
        flags := flags | if background then RESTART_IN_BACKGROUND else NO_FLAGS;
      }
    }

    method PostDestroyThreads(milliseconds: int)
      requires phase == Recorded
      modifies this
      ensures State() == Step(old(State()), StopsThreads(milliseconds))
    {
      // the threads are gone: the commit has been written, an unrun file task has not
      disk, pendingRead := memory, None;
      var flags := RestartFlags();
      ShutdownPostThreadsStop(flags, milliseconds);
      phase := Down;
    }

    method ShutdownPostThreadsStop(flags: bv8, milliseconds: int)
      requires flags & RESTART_LAST_SESSION != 0 ==> restartLastSession.Some?
      modifies this`relaunches, this`file
      ensures relaunches == old(relaunches) + if flags & RESTART_LAST_SESSION == 0 then []
                else [Relaunch(restartLastSession.value, flags & RESTART_IN_BACKGROUND != 0)]
      ensures file == if Measured(own) then Some(TimeFile(milliseconds, session)) else old(file)
    {
      if flags & RESTART_LAST_SESSION != 0 {
        relaunches := relaunches + [Relaunch(restartLastSession.value, flags & RESTART_IN_BACKGROUND != 0)];
      }
      if own.kind != NotValid && own.processes > 0 {
        file := Some(TimeFile(milliseconds, session));
      }
    }
  }
}
