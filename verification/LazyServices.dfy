/**
 Lazily created services of browser/browser_process_impl.cc.  Most are guarded by a
 `created_*` flag that is never cleared; a few by their pointer alone.  Creating one may call
 the getter of another.
 */
module LazyServices {
  import opened Wrappers

  datatype Service =
    | WatchdogThread | PolicyConnector | ProfileManager | LocalState | IconManager
    | NotificationUi | SafeBrowsing | SubresourceFilter
    | MetricsServices | NetworkTimeTracker | BackgroundMode

  /** Guarded by a flag, rather than by the pointer. */
  predicate Flagged(s: Service) {
    s !in {MetricsServices, NetworkTimeTracker, BackgroundMode}
  }

  /** The service whose getter is called while this one is created. */
  function Prerequisite(s: Service): Option<Service> {
    match s
    case LocalState => Some(PolicyConnector)
    case SubresourceFilter => Some(LocalState)
    case MetricsServices => Some(LocalState)
    case NetworkTimeTracker => Some(LocalState)
    case BackgroundMode => Some(ProfileManager)
    case _ => None
  }

  function Rank(s: Service): nat {
    if s in {SubresourceFilter, MetricsServices, NetworkTimeTracker, BackgroundMode} then 2
    else if s == LocalState then 1 else 0
  }

  datatype System = System(
    factory: Service -> bool,     // whether a service's factory produces an object
    filterEnabled: bool,         // without the feature the ruleset service is never built
    created: set<Service>,       // created_* flags
    alive: set<Service>,         // non-null pointers
    built: seq<Service>)         // factories run, in order

  predicate Present(st: System, s: Service) {
    if Flagged(s) then s in st.created else s in st.alive
  }

  /** The factory runs, if it is not skipped. */
  function Built(st: System, s: Service): System {
    st.(built := st.built + [s], alive := if st.factory(s) then st.alive + {s} else st.alive)
  }

  predicate Skipped(st: System, s: Service) { s == SubresourceFilter && !st.filterEnabled }

  /** A getter. */
  function Get(st: System, s: Service): System
    decreases Rank(s)
  {
    if Present(st, s) then st else
    var flagged := if Flagged(s) then st.(created := st.created + {s}) else st;
    if Skipped(st, s) then flagged else
    var ready := if Prerequisite(s).Some? then Get(flagged, Prerequisite(s).value) else flagged;
    Built(ready, s)
  }

  /** What `StartTearDown` and `PostDestroyThreads` reset. */
  const TORN_DOWN := {MetricsServices, NetworkTimeTracker, NotificationUi, ProfileManager, WatchdogThread}

  datatype Event =
    | Gets(service: Service)
    | StartsTearDown
    | DestroysThreads

  function Step(st: System, e: Event): System {
    match e
    case Gets(s) => Get(st, s)
    case StartsTearDown => Get(st.(alive := st.alive - TORN_DOWN), LocalState)  // to commit the preferences
    case DestroysThreads => st.(alive := st.alive - {IconManager})
  }

  function Run(st: System, es: seq<Event>): System
    decreases es
  {
    if es == [] then st else Step(Run(st, es[..|es| - 1]), es[|es| - 1])
  }

  // ---------------------------------------------------------------- every run

  /** A flagged service is built once. */
  ghost predicate BuiltOnce(built: seq<Service>) {
    forall i, j :: 0 <= i < j < |built| && Flagged(built[i]) ==> built[i] != built[j]
  }

  /** Everything was built after what it needs. */
  ghost predicate InOrder(built: seq<Service>) {
    forall i :: 0 <= i < |built| ==> Preceded(built, i)
  }

  ghost predicate Preceded(built: seq<Service>, i: nat)
    requires i < |built|
  {
    Prerequisite(built[i]).Some? ==> Prerequisite(built[i]).value in built[..i]
  }

  /** The invariant, with the services of `open` under construction: their flags are set and
      their factories have not run. */
  ghost predicate InvExcept(st: System, open: set<Service>) {
    && BuiltOnce(st.built) && InOrder(st.built)
    && (forall s :: s in st.built && Flagged(s) ==> s in st.created && s !in open)
    && (forall s :: s in st.created && s !in open && !Skipped(st, s) ==> s in st.built)
    && (forall s :: s in st.alive ==> s in st.built)
  }

  ghost predicate Inv(st: System) { InvExcept(st, {}) }

  lemma BuiltOnceSnoc(built: seq<Service>, s: Service)
    requires BuiltOnce(built) && (Flagged(s) ==> s !in built)
    ensures BuiltOnce(built + [s])
  {
  }

  lemma InOrderSnoc(built: seq<Service>, s: Service)
    requires InOrder(built) && (Prerequisite(s).Some? ==> Prerequisite(s).value in built)
    ensures InOrder(built + [s])
  {
    forall i | 0 <= i < |built + [s]|
      ensures Preceded(built + [s], i)
    {
      assert i < |built| ==> Preceded(built, i);
      assert (built + [s])[..i] == built[..i];
      assert built[..|built|] == built;
    }
  }

  lemma BuiltKeepsInv(st: System, s: Service, open: set<Service>)
    requires InvExcept(st, if Flagged(s) then open + {s} else open)
    requires s !in open && (Flagged(s) ==> s in st.created)
    requires Prerequisite(s).Some? ==> Prerequisite(s).value in st.built
    ensures InvExcept(Built(st, s), open)
  {
    BuiltOnceSnoc(st.built, s);
    InOrderSnoc(st.built, s);
  }

  /** A getter keeps the invariant, provided everything under construction has a higher rank:
      so a getter never comes back to a service that is being created. */
  lemma {:induction false} GetKeepsInv(st: System, s: Service, open: set<Service>)
    requires InvExcept(st, open)
    requires forall o :: o in open ==> Rank(o) > Rank(s)
    ensures InvExcept(Get(st, s), open)
    ensures Flagged(s) && !Skipped(st, s) ==> s in Get(st, s).built
    ensures st.created <= Get(st, s).created && Get(st, s).filterEnabled == st.filterEnabled
    decreases Rank(s)
  {
    if !Present(st, s) {
      var flagged := if Flagged(s) then st.(created := st.created + {s}) else st;
      if !Skipped(st, s) {
        var open' := if Flagged(s) then open + {s} else open;
        assert s !in open;
        assert InvExcept(flagged, open');
        if Prerequisite(s).Some? {
          GetKeepsInv(flagged, Prerequisite(s).value, open');
          BuiltKeepsInv(Get(flagged, Prerequisite(s).value), s, open);
        } else {
          BuiltKeepsInv(flagged, s, open);
        }
      }
    }
  }

  ghost predicate Fresh(st: System) { st.created == {} && st.alive == {} && st.built == [] }

  /** Over any sequence of getter calls and shutdown phases, whatever the factories yield: the
      factory of a flagged service runs at most once, even if it yielded nothing or what it
      yielded was torn down; every service that exists was built after its prerequisite; and
      a flagged service whose getter was called has been built, unless its feature is off. */
  lemma {:induction false} FlaggedBuiltOnce(st: System, es: seq<Event>)
    requires Fresh(st)
    ensures Inv(Run(st, es))
    ensures forall i, j :: 0 <= i < j < |Run(st, es).built| && Flagged(Run(st, es).built[i]) ==>
              Run(st, es).built[i] != Run(st, es).built[j]
    decreases es
  {
    if es != [] {
      var before, e := es[..|es| - 1], es[|es| - 1];
      FlaggedBuiltOnce(st, before);
      var now := Run(st, before);
      match e {
        case Gets(s) => GetKeepsInv(now, s, {});
        case StartsTearDown => GetKeepsInv(now.(alive := now.alive - TORN_DOWN), LocalState, {});
        case DestroysThreads =>
      }
    }
  }

  /** What is built after what: the local state after the policy connector, the ruleset
      service, the metrics services and the network time tracker after the local state, the
      background-mode manager after the profile manager. */
  lemma BuiltInOrder(st: System, es: seq<Event>, i: nat)
    requires Fresh(st) && i < |Run(st, es).built|
    ensures var built := Run(st, es).built;
      && (built[i] == LocalState ==> PolicyConnector in built[..i])
      && (built[i] in {SubresourceFilter, MetricsServices, NetworkTimeTracker} ==> LocalState in built[..i])
      && (built[i] == BackgroundMode ==> ProfileManager in built[..i])
  {
    BuiltAfterPrerequisite(st, es, i);
  }

  lemma BuiltAfterPrerequisite(st: System, es: seq<Event>, i: nat)
    requires Fresh(st) && i < |Run(st, es).built|
    ensures var built := Run(st, es).built;
      Prerequisite(built[i]).Some? ==> Prerequisite(built[i]).value in built[..i]
  {
    FlaggedBuiltOnce(st, es);
    PrerequisiteBefore(Run(st, es).built, i);
  }

  lemma PrerequisiteBefore(built: seq<Service>, i: nat)
    requires InOrder(built) && i < |built|
    ensures Prerequisite(built[i]).Some? ==> Prerequisite(built[i]).value in built[..i]
  {
    assert Preceded(built, i);
  }

  lemma {:induction false} RunKeepsConfig(st: System, es: seq<Event>)
    requires Fresh(st)
    ensures Run(st, es).filterEnabled == st.filterEnabled && Run(st, es).factory == st.factory
    decreases es
  {
    if es != [] {
      var before := es[..|es| - 1];
      RunKeepsConfig(st, before);
      GetKeepsConfig(Run(st, before), if es[|es| - 1].Gets? then es[|es| - 1].service else LocalState);
      var reset := Run(st, before).(alive := Run(st, before).alive - TORN_DOWN);
      GetKeepsConfig(reset, LocalState);
    }
  }

  lemma {:induction false} GetKeepsConfig(st: System, s: Service)
    ensures Get(st, s).filterEnabled == st.filterEnabled && Get(st, s).factory == st.factory
    decreases Rank(s)
  {
    if !Present(st, s) && !Skipped(st, s) && Prerequisite(s).Some? {
      GetKeepsConfig(if Flagged(s) then st.(created := st.created + {s}) else st, Prerequisite(s).value);
    }
  }

  /** Once the ruleset service was asked for, it has been built exactly if its feature is on;
      before that it may not have been asked for, and it is never built with the feature off. */
  lemma RulesetServiceIff(st: System, es: seq<Event>)
    requires Fresh(st)
    ensures SubresourceFilter in Get(Run(st, es), SubresourceFilter).built <==> st.filterEnabled
    ensures !st.filterEnabled ==> SubresourceFilter !in Run(st, es).built
  {
    FlaggedBuiltOnce(st, es);
    RunKeepsConfig(st, es);
    GetKeepsInv(Run(st, es), SubresourceFilter, {});
    if !st.filterEnabled {
      NeverBuiltWithoutFeature(st, es);
    }
  }

  lemma {:induction false} NeverBuiltWithoutFeature(st: System, es: seq<Event>)
    requires Fresh(st) && !st.filterEnabled
    ensures SubresourceFilter !in Run(st, es).built
    decreases es
  {
    if es != [] {
      var before, e := es[..|es| - 1], es[|es| - 1];
      var now := Run(st, before);
      NeverBuiltWithoutFeature(st, before);
      RunKeepsConfig(st, before);
      if e.Gets? {
        GetWithoutFeature(now, e.service);
      } else if e.StartsTearDown? {
        GetWithoutFeature(now.(alive := now.alive - TORN_DOWN), LocalState);
      }
    }
  }

  lemma {:induction false} GetWithoutFeature(st: System, s: Service)
    requires !st.filterEnabled && SubresourceFilter !in st.built
    ensures SubresourceFilter !in Get(st, s).built
    decreases Rank(s)
  {
    if !Present(st, s) && !Skipped(st, s) && Prerequisite(s).Some? {
      var flagged := if Flagged(s) then st.(created := st.created + {s}) else st;
      GetWithoutFeature(flagged, Prerequisite(s).value);
      GetKeepsConfig(flagged, Prerequisite(s).value);
    }
  }

  /** What each phase of shutdown leaves of the services that existed: the start of tear-down
      resets five, and makes the local state, to commit it, if nobody asked for it before; the
      end of the threads resets the icon manager; all flags stay. */
  lemma ShutdownResets(st: System)
    ensures var torn := Step(st, StartsTearDown);
      && st.alive - {MetricsServices, NetworkTimeTracker, NotificationUi, ProfileManager, WatchdogThread} <= torn.alive
      && torn.alive !! {MetricsServices, NetworkTimeTracker, NotificationUi, ProfileManager, WatchdogThread}
      && st.created <= torn.created && LocalState in torn.created
      && torn.built == st.built
           + if LocalState in st.created then []
             else (if PolicyConnector in st.created then [] else [PolicyConnector]) + [LocalState]
    ensures var down := Step(st, DestroysThreads);
      down.alive == st.alive - {IconManager} && down.created == st.created && down.built == st.built
  {
    GetOfLocalState(st.(alive := st.alive - TORN_DOWN));
  }

  lemma GetOfPolicyConnector(st: System)
    ensures Get(st, PolicyConnector)
         == if PolicyConnector in st.created then st
            else Built(st.(created := st.created + {PolicyConnector}), PolicyConnector)
  {
  }

  lemma GetOfLocalState(st: System)
    ensures st.alive <= Get(st, LocalState).alive <= st.alive + {LocalState, PolicyConnector}
    ensures st.created + {LocalState} <= Get(st, LocalState).created
    ensures LocalState in st.created ==> Get(st, LocalState) == st
    ensures LocalState !in st.created ==>
              Get(st, LocalState).built
              == st.built + (if PolicyConnector in st.created then [] else [PolicyConnector]) + [LocalState]
  {
    if LocalState !in st.created {
      var flagged := st.(created := st.created + {LocalState});
      GetOfPolicyConnector(flagged);
      assert Get(st, LocalState) == Built(Get(flagged, PolicyConnector), LocalState);
      assert st.built + [] == st.built;
    }
  }

  // ---------------------------------------------------------------- which services are built once

  lemma RunSnoc(st: System, es: seq<Event>, e: Event)
    ensures Run(st, es + [e]) == Step(Run(st, es), e)
  {
    assert (es + [e])[..|es|] == es;
  }

  predicate AtMostOnce(built: seq<Service>, s: Service) {
    forall i, j :: 0 <= i < j < |built| && built[i] == s ==> built[j] != s
  }

  /** From `st` to `after` only `s`, and what it needs, was built or came to exist. */
  ghost predicate Grew(st: System, after: System, s: Service) {
    && st.built <= after.built && after.factory == st.factory
    && st.alive <= after.alive && st.created <= after.created
    && (forall x :: x in after.built[|st.built|..] ==> x == s || Flagged(x))
    && (forall x :: x in after.alive && x !in st.alive ==> x == s || Flagged(x))
  }

  lemma BuiltGrows(st: System, ready: System, p: Service, s: Service)
    requires Grew(st, ready, p) && Flagged(p)
    ensures Grew(st, Built(ready, s), s)
  {
    var built := Built(ready, s).built;
    assert built[|st.built|..] == ready.built[|st.built|..] + [s];
  }

  lemma {:induction false} GetGrows(st: System, s: Service)
    ensures Grew(st, Get(st, s), s)
    decreases Rank(s)
  {
    if !Present(st, s) && !Skipped(st, s) {
      var flagged := if Flagged(s) then st.(created := st.created + {s}) else st;
      var p := if Prerequisite(s).Some? then Prerequisite(s).value else LocalState;
      var ready := if Prerequisite(s).Some? then Get(flagged, p) else flagged;
      if Prerequisite(s).Some? {
        GetGrows(flagged, p);
      }
      assert Grew(st, ready, p);
      BuiltGrows(st, ready, p, s);
    }
  }

  /** A getter that does not find its service runs the factory, last of all. */
  lemma GetBuilds(st: System, s: Service)
    ensures Grew(st, Get(st, s), s)
    ensures Present(st, s) || Skipped(st, s) ==> Get(st, s).built == st.built
    ensures !Present(st, s) && !Skipped(st, s) ==>
              var after := Get(st, s);
              && |after.built| > |st.built| && after.built[|after.built| - 1] == s
              && (st.factory(s) ==> s in after.alive)
  {
    GetGrows(st, s);
    if !Present(st, s) && !Skipped(st, s) {
      var flagged := if Flagged(s) then st.(created := st.created + {s}) else st;
      if Prerequisite(s).Some? {
        GetGrows(flagged, Prerequisite(s).value);
      }
    }
  }

  lemma AppendOthers(built: seq<Service>, tail: seq<Service>, s: Service)
    requires s !in tail
    ensures s in built + tail <==> s in built
    ensures AtMostOnce(built, s) ==> AtMostOnce(built + tail, s)
  {
  }

  /** Only the getter of an unflagged service builds it, and only when it does not exist. */
  lemma GetOfUnflagged(st: System, s: Service, x: Service)
    requires !Flagged(s) && (x != s || s in st.alive)
    ensures s in Get(st, x).built <==> s in st.built
    ensures AtMostOnce(st.built, s) ==> AtMostOnce(Get(st, x).built, s)
    ensures s in Get(st, x).alive <==> s in st.alive
  {
    GetBuilds(st, x);
    GrewWithout(st, Get(st, x), s, x);
  }

  lemma GrewWithout(st: System, after: System, s: Service, x: Service)
    requires Grew(st, after, x) && !Flagged(s)
    requires x != s || (after.built == st.built && s in st.alive)
    ensures s in after.built <==> s in st.built
    ensures AtMostOnce(st.built, s) ==> AtMostOnce(after.built, s)
    ensures s in after.alive <==> s in st.alive
  {
    var tail := after.built[|st.built|..];
    assert after.built == st.built + tail;
    AppendOthers(st.built, tail, s);
  }

  lemma FirstGet(st: System, s: Service)
    requires !Flagged(s) && st.factory(s) && s !in st.alive && s !in st.built
    ensures AtMostOnce(Get(st, s).built, s) && s in Get(st, s).alive
  {
    assert !Skipped(st, s);
    GetBuilds(st, s);
    var ready := if Prerequisite(s).Some? then Get(st, Prerequisite(s).value) else st;
    if Prerequisite(s).Some? {
      assert Prerequisite(s).value != s;
      GetOfUnflagged(st, s, Prerequisite(s).value);
    }
    assert s !in ready.built && Get(st, s).built == ready.built + [s];
  }

  ghost predicate KeptInv(st: System, s: Service) {
    AtMostOnce(st.built, s) && (s in st.built ==> s in st.alive)
  }

  lemma GetKeepsKept(st: System, s: Service, x: Service)
    requires !Flagged(s) && st.factory(s) && KeptInv(st, s)
    ensures KeptInv(Get(st, x), s)
  {
    if x == s && s !in st.alive {
      FirstGet(st, s);
    } else {
      GetOfUnflagged(st, s, x);
    }
  }

  lemma {:induction false} KeptIsBuiltOnce(st: System, es: seq<Event>, s: Service)
    requires Fresh(st) && !Flagged(s) && st.factory(s) && s !in TORN_DOWN
    ensures KeptInv(Run(st, es), s) && Run(st, es).factory == st.factory
    decreases es
  {
    if es != [] {
      var before, e := es[..|es| - 1], es[|es| - 1];
      KeptIsBuiltOnce(st, before, s);
      var now := Run(st, before);
      match e {
        case Gets(x) => GetKeepsKept(now, s, x); GetBuilds(now, x);
        case StartsTearDown =>
          GetKeepsKept(now.(alive := now.alive - TORN_DOWN), s, LocalState);
          GetBuilds(now.(alive := now.alive - TORN_DOWN), LocalState);
        case DestroysThreads =>
      }
    }
  }

  /** In any run, a getter that finds its unflagged service missing runs the factory, so two
      such calls build it twice. */
  lemma BuiltTwice(st: System, s: Service, between: System)
    requires !Flagged(s) && s !in st.alive && s !in between.alive
    requires Get(st, s).built <= between.built
    ensures !AtMostOnce(Get(between, s).built, s)
  {
    GetBuilds(st, s);
    GetBuilds(between, s);
    var i, built := |Get(st, s).built| - 1, Get(between, s).built;
    assert built[i] == s && built[|built| - 1] == s;
  }

  /** Two getter calls, or two with a tear-down between them. */
  function TwoGets(s: Service, tearDown: bool): seq<Event> {
    if tearDown then [Gets(s), StartsTearDown, Gets(s)] else [Gets(s), Gets(s)]
  }

  lemma TwoGetsBuildTwice(st: System, s: Service)
    requires Fresh(st) && !Flagged(s) && (st.factory(s) ==> s in TORN_DOWN)
    ensures !AtMostOnce(Run(st, TwoGets(s, st.factory(s))).built, s)
  {
    var once := Step(st, Gets(s));
    assert [] + [Gets(s)] == [Gets(s)];
    RunSnoc(st, [], Gets(s));
    if st.factory(s) {
      assert TwoGets(s, true) == [Gets(s)] + [StartsTearDown] + [Gets(s)];
      RunSnoc(st, [Gets(s)], StartsTearDown);
      RunSnoc(st, [Gets(s)] + [StartsTearDown], Gets(s));
      var torn := once.(alive := once.alive - TORN_DOWN);
      GetBuilds(torn, LocalState);
      BuiltTwice(st, s, Step(once, StartsTearDown));
    } else {
      assert TwoGets(s, false) == [Gets(s)] + [Gets(s)];
      RunSnoc(st, [Gets(s)], Gets(s));
      UnmadeStaysMissing(st, s);
      BuiltTwice(st, s, once);
    }
  }

  lemma UnmadeStaysMissing(st: System, s: Service)
    requires !Flagged(s) && !st.factory(s) && s !in st.alive
    ensures s !in Get(st, s).alive
  {
    if Prerequisite(s).Some? {
      GetBuilds(st, Prerequisite(s).value);
    }
  }

  /** Over all runs, the services built at most once are exactly those with a flag, and those
      without one whose factory yields an object that tear-down does not reset. */
  lemma BuiltOnceIff(st: System, s: Service)
    requires Fresh(st)
    ensures (forall es :: AtMostOnce(Run(st, es).built, s))
       <==> Flagged(s) || (st.factory(s) && s !in TORN_DOWN)
  {
    if Flagged(s) {
      forall es
        ensures AtMostOnce(Run(st, es).built, s)
      {
        FlaggedBuiltOnce(st, es);
      }
    } else if st.factory(s) && s !in TORN_DOWN {
      forall es
        ensures AtMostOnce(Run(st, es).built, s)
      {
        KeptIsBuiltOnce(st, es, s);
      }
    } else {
      TwoGetsBuildTwice(st, s);
    }
  }

  lemma PrerequisitePresent(st: System, s: Service)
    requires Inv(st) && s in st.built && Prerequisite(s).Some?
    ensures Prerequisite(s).value in st.created
  {
    var i :| 0 <= i < |st.built| && st.built[i] == s;
    assert Preceded(st.built, i);
  }

  lemma TearDownResets(st: System, s: Service)
    requires !Flagged(s)
    ensures st.created <= Step(st, StartsTearDown).created
    ensures s in Step(st, StartsTearDown).alive <==> s in st.alive && s !in TORN_DOWN
  {
    GetBuilds(st.(alive := st.alive - TORN_DOWN), LocalState);
  }

  lemma GetWhenReady(st: System, s: Service)
    requires !Flagged(s) && (Prerequisite(s).Some? ==> Present(st, Prerequisite(s).value))
    ensures Get(st, s).built == if s in st.alive then st.built else st.built + [s]
  {
  }

  /** After tear-down, the getter of an unflagged service that existed runs its factory again
      exactly when tear-down reset it, which spares only the background-mode manager. */
  lemma RebuiltAfterTearDownIff(st: System, s: Service)
    requires Inv(st) && s in st.alive && !Flagged(s)
    ensures var torn := Step(st, StartsTearDown);
      Get(torn, s).built == if s in TORN_DOWN then torn.built + [s] else torn.built
    ensures s in TORN_DOWN <==> s != BackgroundMode
  {
    TearDownResets(st, s);
    if Prerequisite(s).Some? {
      PrerequisitePresent(st, s);
    }
    GetWhenReady(Step(st, StartsTearDown), s);
  }

  // ---------------------------------------------------------------- the code, in place

  class BrowserProcessImpl {
    const factory: Service -> bool
    const filterEnabled: bool
    var created: set<Service>
    var alive: set<Service>
    var built: seq<Service>

    function State(): System
      reads this
    {
      System(factory, filterEnabled, created, alive, built)
    }

    constructor (factory: Service -> bool, filterEnabled: bool)
      ensures State() == System(factory, filterEnabled, {}, {}, [])
    {
      this.factory, this.filterEnabled := factory, filterEnabled;
      created, alive, built := {}, {}, [];
    }

    method RunFactory(s: Service)
      modifies this
      ensures State() == Built(old(State()), s)
    {
      built := built + [s];
      if factory(s) {
        alive := alive + {s};
      }
    }

    /** The flag is set only after the connector has been made. */
    method GetBrowserPolicyConnector()
      modifies this
      ensures State() == Get(old(State()), PolicyConnector)
    {
      if PolicyConnector !in created {
        RunFactory(PolicyConnector);
        created := created + {PolicyConnector};
      }
    }

    method GetProfileManager()
      modifies this
      ensures State() == Get(old(State()), ProfileManager)
    {
      if ProfileManager !in created {
        created := created + {ProfileManager};
        RunFactory(ProfileManager);
      }
    }

    method GetLocalState()
      modifies this
      ensures State() == Get(old(State()), LocalState)
    {
      if LocalState !in created {
        created := created + {LocalState};
        GetBrowserPolicyConnector();
        RunFactory(LocalState);
      }
    }

    method GetSubresourceFilterRulesetService()
      modifies this
      ensures State() == Get(old(State()), SubresourceFilter)
    {
      if SubresourceFilter !in created {
        created := created + {SubresourceFilter};
        if !filterEnabled {
          return;
        }
        GetLocalState();
        RunFactory(SubresourceFilter);
      }
    }

    method GetMetricsServicesManager()
      modifies this
      ensures State() == Get(old(State()), MetricsServices)
    {
      if MetricsServices !in alive {
        GetLocalState();
        RunFactory(MetricsServices);
      }
    }

    method StartTearDown()
      modifies this
      ensures State() == Step(old(State()), StartsTearDown)
    {
      alive := alive - TORN_DOWN;
      GetLocalState();
    }
  }
}
