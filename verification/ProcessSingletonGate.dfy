/**
 Command lines forwarded by later browser processes, as gated by ChromeProcessSingleton: a
 modal-dialog lock that discards, then a start-up lock that queues until it is unlocked
 (browser/process_singleton_modal_dialog_lock.cc, browser/process_singleton_startup_lock.cc,
 composed in browser/chrome_process_singleton.cc), then the client callback, which drops
 everything once shutdown has begun (browser/chrome_browser_main.cc).
 */
module ProcessSingletonGate {

  /** A forwarded command line and the directory it was given in. */
  datatype Message = Message(argv: seq<string>, directory: string)

  datatype Gate = Gate(
    dialogActive: bool,        // active_dialog_ != NULL
    locked: bool,              // locked_
    saved: seq<Message>,       // saved_startup_messages_
    shuttingDown: bool,        // shutting_down_ || tearing_down_
    delivered: seq<Message>,   // calls of the client callback
    processed: seq<Message>)   // command lines it went on to process

  const START := Gate(false, true, [], false, [], [])

  datatype Event =
    | DialogChanges(active: bool)   // SetActiveModalDialog
    | Arrives(message: Message)     // a notification from the singleton
    | Unlocks                       // Unlock
    | ShutsDown                     // Unpin or StartTearDown

  // ---------------------------------------------------------------- one step

  function Delivered(g: Gate, m: Message): Gate {
    g.(delivered := g.delivered + [m],
       processed := if g.shuttingDown then g.processed else g.processed + [m])
  }

  function DeliverAll(g: Gate, ms: seq<Message>): Gate
    decreases ms
  {
    if ms == [] then g else Delivered(DeliverAll(g, ms[..|ms| - 1]), ms[|ms| - 1])
  }

  /** The first occurrence of each message, in order. */
  function FirstOccurrences(ms: seq<Message>): seq<Message> {
    if ms == [] then [] else
    var before, m := ms[..|ms| - 1], ms[|ms| - 1];
    if m in before then FirstOccurrences(before) else FirstOccurrences(before) + [m]
  }

  function Step(g: Gate, e: Event): Gate {
    match e
    case DialogChanges(active) => g.(dialogActive := active)
    case Arrives(m) =>
      if g.dialogActive then g
      else if g.locked then g.(saved := g.saved + [m])
      else Delivered(g, m)
    case Unlocks => DeliverAll(g.(locked := false, saved := []), FirstOccurrences(g.saved))
    case ShutsDown => g.(shuttingDown := true)
  }

  function Run(g: Gate, es: seq<Event>): Gate
    decreases es
  {
    if es == [] then g else Step(Run(g, es[..|es| - 1]), es[|es| - 1])
  }

  // ---------------------------------------------------------------- the environment's view

  function DialogAfter(es: seq<Event>): bool {
    if es == [] then false
    else if es[|es| - 1].DialogChanges? then es[|es| - 1].active
    else DialogAfter(es[..|es| - 1])
  }

  /** The notifications that arrived while no dialog was active, in order. */
  function Accepted(es: seq<Event>): seq<Message> {
    if es == [] then [] else
    var before, e := es[..|es| - 1], es[|es| - 1];
    if e.Arrives? && !DialogAfter(before) then Accepted(before) + [e.message] else Accepted(before)
  }

  /** Those of them that arrived before the first `Unlock`. */
  function AcceptedWhileLocked(es: seq<Event>): seq<Message> {
    if es == [] then [] else
    var before, e := es[..|es| - 1], es[|es| - 1];
    if e.Arrives? && !DialogAfter(before) && Unlocks !in before then AcceptedWhileLocked(before) + [e.message]
    else AcceptedWhileLocked(before)
  }

  predicate NoRepeats(ms: seq<Message>) {
    forall i, j :: 0 <= i < j < |ms| ==> ms[i] != ms[j]
  }

  // ---------------------------------------------------------------- lemmas

  lemma {:induction false} DeliverAllAppends(g: Gate, ms: seq<Message>)
    ensures DeliverAll(g, ms) == g.(delivered := g.delivered + ms,
                                    processed := if g.shuttingDown then g.processed else g.processed + ms)
    decreases ms
  {
    if ms == [] {
      assert g.delivered + ms == g.delivered && g.processed + ms == g.processed;
    } else {
      var before, m := ms[..|ms| - 1], ms[|ms| - 1];
      DeliverAllAppends(g, before);
      assert ms == before + [m];
      assert (g.delivered + before) + [m] == g.delivered + ms;
      assert (g.processed + before) + [m] == g.processed + ms;
    }
  }

  function SeenIn(ms: seq<Message>): set<Message> { set m | m in ms }

  lemma FirstOccurrencesSnoc(ms: seq<Message>, i: nat)
    requires i < |ms|
    ensures SeenIn(ms[..i + 1]) == SeenIn(ms[..i]) + {ms[i]}
    ensures FirstOccurrences(ms[..i + 1])
         == if ms[i] in ms[..i] then FirstOccurrences(ms[..i]) else FirstOccurrences(ms[..i]) + [ms[i]]
  {
    assert ms[..i + 1][..i] == ms[..i];
    assert ms[..i + 1] == ms[..i] + [ms[i]];
  }

  /** Nothing is lost for good, and nothing is kept twice. */
  lemma {:induction false} FirstOccurrencesNoRepeats(ms: seq<Message>)
    ensures forall m :: m in FirstOccurrences(ms) <==> m in ms
    ensures NoRepeats(FirstOccurrences(ms))
  {
    if ms != [] {
      assert ms == ms[..|ms| - 1] + [ms[|ms| - 1]];
      FirstOccurrencesNoRepeats(ms[..|ms| - 1]);
    }
  }

  /** Nothing is dropped from a list exactly when it has no repeats. */
  lemma {:induction false} FirstOccurrencesIsIdentityIff(ms: seq<Message>)
    ensures FirstOccurrences(ms) == ms <==> NoRepeats(ms)
    ensures if NoRepeats(ms) then |FirstOccurrences(ms)| == |ms| else |FirstOccurrences(ms)| < |ms|
  {
    if ms != [] {
      var before, m := ms[..|ms| - 1], ms[|ms| - 1];
      FirstOccurrencesIsIdentityIff(before);
      assert ms == before + [m];
      if NoRepeats(before) && m in before {
        var i :| 0 <= i < |before| && before[i] == m;
        assert ms[i] == ms[|ms| - 1];
      } else if !NoRepeats(before) {
        var i, j :| 0 <= i < j < |before| && before[i] == before[j];
        assert ms[i] == ms[j];
      }
    }
  }

  // ---------------------------------------------------------------- every run

  ghost predicate Matches(g: Gate, accepted: seq<Message>, held: seq<Message>) {
    && held <= accepted
    && (g.locked ==> g.delivered == [] && g.saved == accepted == held)
    && (!g.locked ==> g.saved == [] && g.delivered == FirstOccurrences(held) + accepted[|held|..])
  }

  lemma UnlockMatches(g: Gate, accepted: seq<Message>, held: seq<Message>)
    requires Matches(g, accepted, held)
    ensures Matches(Step(g, Unlocks), accepted, held) && !Step(g, Unlocks).locked
    ensures Step(g, Unlocks).dialogActive == g.dialogActive
  {
    DeliverAllAppends(g.(locked := false, saved := []), FirstOccurrences(g.saved));
    if g.locked {
      assert accepted[|held|..] == [];
      assert Step(g, Unlocks).delivered == FirstOccurrences(held) + [];
    } else {
      assert FirstOccurrences(g.saved) == [];
      assert Step(g, Unlocks).delivered == g.delivered;
    }
  }

  lemma ArrivalMatches(g: Gate, accepted: seq<Message>, held: seq<Message>, m: Message)
    requires Matches(g, accepted, held) && !g.dialogActive
    ensures Matches(Step(g, Arrives(m)), accepted + [m], if g.locked then held + [m] else held)
  {
    if !g.locked {
      assert (accepted + [m])[|held|..] == accepted[|held|..] + [m];
    }
  }

  /** On every run: nothing is delivered before the first `Unlock`; afterwards, what was
      delivered is one copy of each message that arrived under the lock, in order of first
      arrival, followed by every later arrival; messages that arrive while a dialog is
      active are gone; and later calls of `Unlock` change nothing. */
  lemma {:induction false} DeliveredExactly(es: seq<Event>)
    ensures var g := Run(START, es);
      && g.dialogActive == DialogAfter(es)
      && (g.locked <==> Unlocks !in es)
      && Matches(g, Accepted(es), AcceptedWhileLocked(es))
    decreases es
  {
    if es != [] {
      var before, e := es[..|es| - 1], es[|es| - 1];
      var g := Run(START, before);
      DeliveredExactly(before);
      assert es == before + [e];
      var accepted, held := Accepted(before), AcceptedWhileLocked(before);
      if e == Unlocks {
        UnlockMatches(g, accepted, held);
      }
      if e.Arrives? && !g.dialogActive {
        ArrivalMatches(g, accepted, held, e.message);
      } else {
        assert Accepted(es) == accepted && AcceptedWhileLocked(es) == held;
      }
    }
  }

  /** The order-preserving reading of the class comment, that every message accepted is
      delivered or still queued, holds in a run exactly when the lock is still held or no
      message was repeated under it. */
  lemma AllAcceptedIff(es: seq<Event>)
    ensures var g := Run(START, es);
      g.delivered + g.saved == Accepted(es) <==> g.locked || NoRepeats(AcceptedWhileLocked(es))
  {
    DeliveredExactly(es);
    var held := AcceptedWhileLocked(es);
    FirstOccurrencesIsIdentityIff(held);
    assert Accepted(es) == held + Accepted(es)[|held|..];
    var g := Run(START, es);
    if !g.locked && !NoRepeats(held) {
      assert |g.delivered + g.saved| < |Accepted(es)|;
    }
  }

  lemma RunSnoc(g: Gate, es: seq<Event>, e: Event)
    ensures Run(g, es + [e]) == Step(Run(g, es), e)
  {
    assert (es + [e])[..|es|] == es;
  }

  lemma FirstOfTwo(m: Message)
    ensures FirstOccurrences([m, m]) == [m]
  {
    assert [m, m][..1] == [m] && [m][..0] == [];
    assert FirstOccurrences([m]) == [] + [m];
  }

  /** A second identical invocation during start-up is lost, though both senders were told
      that it was taken. */
  lemma RepeatedInvocationIsLost(m: Message)
    ensures var es := [Arrives(m), Arrives(m), Unlocks];
      Run(START, es).delivered == [m] && Run(START, es).saved == []
  {
    assert [Arrives(m), Arrives(m)] + [Unlocks] == [Arrives(m), Arrives(m), Unlocks];
    BothAreSaved(m);
    RunSnoc(START, [Arrives(m), Arrives(m)], Unlocks);
    FirstOfTwo(m);
    DeliverAllAppends(START.(locked := false), [m]);
  }

  lemma BothAreSaved(m: Message)
    ensures Run(START, [Arrives(m), Arrives(m)]) == START.(saved := [m, m])
  {
    assert [] + [Arrives(m)] == [Arrives(m)] && [Arrives(m)] + [Arrives(m)] == [Arrives(m), Arrives(m)];
    RunSnoc(START, [], Arrives(m));
    RunSnoc(START, [Arrives(m)], Arrives(m));
  }

  /** Once shutdown has begun no command line is processed, whatever still arrives and
      however often the lock is unlocked. */
  lemma {:induction false} NothingProcessedAfterShutdown(g: Gate, es: seq<Event>)
    requires g.shuttingDown
    ensures Run(g, es).shuttingDown && Run(g, es).processed == g.processed
    decreases es
  {
    if es != [] {
      var before, e := es[..|es| - 1], es[|es| - 1];
      NothingProcessedAfterShutdown(g, before);
      if e == Unlocks {
        var h := Run(g, before);
        DeliverAllAppends(h.(locked := false, saved := []), FirstOccurrences(h.saved));
      }
    }
  }

  /** The run up to the first `Unpin` or `StartTearDown`. */
  function BeforeShutdown(es: seq<Event>): seq<Event> {
    if ShutsDown !in es then es else BeforeShutdown(es[..|es| - 1])
  }

  lemma StepProcesses(g: Gate, e: Event)
    ensures var g' := Step(g, e);
      && g.delivered <= g'.delivered
      && (g'.shuttingDown <==> g.shuttingDown || e == ShutsDown)
      && (g.shuttingDown ==> g'.processed == g.processed)
      && (!g.shuttingDown && g.processed == g.delivered ==> g'.processed == g'.delivered)
  {
    if e == Unlocks {
      DeliverAllAppends(g.(locked := false, saved := []), FirstOccurrences(g.saved));
    }
  }

  /** On every run: what is processed is exactly what had been delivered when shutdown began,
      and everything delivered so far if it has not begun. */
  lemma {:induction false} ProcessedExactly(es: seq<Event>)
    ensures var g := Run(START, es);
      && (g.shuttingDown <==> ShutsDown in es)
      && g.processed == Run(START, BeforeShutdown(es)).delivered
      && g.processed <= g.delivered
    decreases es
  {
    if es != [] {
      var before, e := es[..|es| - 1], es[|es| - 1];
      assert es == before + [e];
      ProcessedExactly(before);
      StepProcesses(Run(START, before), e);
    }
  }

  // ---------------------------------------------------------------- the code, in place

  /** The browser process as the client callback sees it. */
  class BrowserProcess {
    var shuttingDown: bool
    var tearingDown: bool
    var delivered: seq<Message>
    var processed: seq<Message>

    constructor ()
      ensures !shuttingDown && !tearingDown && delivered == processed == []
    {
      shuttingDown, tearingDown, delivered, processed := false, false, [], [];
    }

    predicate IsShuttingDown()
      reads this
    {
      shuttingDown || tearingDown
    }

    method Unpin()
      modifies this`shuttingDown
      ensures IsShuttingDown()
    {
      shuttingDown := true;
    }

    method StartTearDown()
      modifies this`tearingDown
      ensures IsShuttingDown()
    {
      tearingDown := true;
    }

    /** `ProcessSingletonNotificationCallback`. */
    method Notify(m: Message) returns (handled: bool)
      modifies this`delivered, this`processed
      ensures delivered == old(delivered) + [m]
      ensures handled <==> !IsShuttingDown()
      ensures processed == if handled then old(processed) + [m] else old(processed)
    {
      delivered := delivered + [m];
      if IsShuttingDown() {
        return false;
      }
      processed := processed + [m];
      return true;
    }
  }

  class ChromeProcessSingleton {
    const client: BrowserProcess
    var dialogActive: bool
    var locked: bool
    var saved: seq<Message>

    function State(): Gate
      reads this, client
    {
      Gate(dialogActive, locked, saved, client.IsShuttingDown(), client.delivered, client.processed)
    }

    constructor (client: BrowserProcess)
      ensures this.client == client && !dialogActive && locked && saved == []
    {
      this.client := client;
      dialogActive, locked, saved := false, true, [];
    }

    method SetActiveModalDialog(active: bool)
      modifies this
      ensures State() == Step(old(State()), DialogChanges(active))
    {
      dialogActive := active;
    }

    /** `NotificationCallbackImpl` of the start-up lock. */
    method StartupLockNotify(m: Message) returns (handled: bool)
      modifies this, client
      ensures State() == if old(locked) then old(State()).(saved := old(saved) + [m]) else Delivered(old(State()), m)
      ensures handled <==> old(locked) || !client.IsShuttingDown()
    {
      if locked {
        saved := saved + [m];
        handled := true;
      } else {
        handled := client.Notify(m);
      }
    }

    /** `NotificationCallbackImpl` of the modal-dialog lock, which the singleton calls.  The
        sender is refused only by an unlocked gate during shutdown. */
    method Notify(m: Message) returns (handled: bool)
      modifies this, client
      ensures State() == Step(old(State()), Arrives(m))
      ensures handled <==> dialogActive || old(locked) || !client.IsShuttingDown()
    {
      if dialogActive {
        handled := true;
      } else {
        handled := StartupLockNotify(m);
      }
    }

    /** One round of the loop of `Unlock`, which has replayed `sofar` already. */
    method ReplayUnlessSeen(m: Message, replayed: set<Message>, ghost delivered: seq<Message>,
                            ghost processed: seq<Message>, ghost sofar: seq<Message>)
      returns (replayed': set<Message>, ghost sofar': seq<Message>)
      requires client.delivered == delivered + sofar
      requires client.processed == if client.IsShuttingDown() then processed else processed + sofar
      modifies client`delivered, client`processed
      ensures replayed' == replayed + {m}
      ensures sofar' == if m in replayed then sofar else sofar + [m]
      ensures client.delivered == delivered + sofar'
      ensures client.processed == if client.IsShuttingDown() then processed else processed + sofar'
    {
      replayed', sofar' := replayed + {m}, sofar;
      if m !in replayed {
        var handled := client.Notify(m);
        sofar' := sofar + [m];
        assert delivered + sofar' == delivered + sofar + [m];
        assert processed + sofar' == processed + sofar + [m];
      }
    }

    /** The loop of `Unlock`: each saved message is replayed once. */
    method ReplaySavedMessages()
      modifies client`delivered, client`processed
      ensures client.delivered == old(client.delivered) + FirstOccurrences(saved)
      ensures client.processed == if client.IsShuttingDown() then old(client.processed)
                                  else old(client.processed) + FirstOccurrences(saved)
    {
      var replayed: set<Message> := {};
      ghost var sofar: seq<Message> := [];
      var i := 0;
      while i < |saved|
        invariant 0 <= i <= |saved| && sofar == FirstOccurrences(saved[..i])
        invariant replayed == SeenIn(saved[..i])
        invariant client.delivered == old(client.delivered) + sofar
        invariant client.processed == if client.IsShuttingDown() then old(client.processed)
                                      else old(client.processed) + sofar
      {
        FirstOccurrencesSnoc(saved, i);
        replayed, sofar := ReplayUnlessSeen(saved[i], replayed, old(client.delivered), old(client.processed), sofar);
        i := i + 1;
      }
      assert saved[..|saved|] == saved;
    }

    method Unlock()
      modifies this, client
      ensures State() == Step(old(State()), Unlocks)
    {
      locked := false;
      ReplaySavedMessages();
      DeliverAllAppends(old(State()).(locked := false, saved := []), FirstOccurrences(saved));
      saved := [];
    }
  }
}
