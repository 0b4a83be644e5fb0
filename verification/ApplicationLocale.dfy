/**
 The two copies of the application locale: `locale_` of the browser process, used on the UI
 thread, and the copy that the IO thread reads (browser/browser_process_impl.cc and
 browser/chrome_content_browser_client.cc).
 */
module ApplicationLocale {

  datatype System = System(
    locale: string,         // locale_
    ioRunning: bool,        // the IO thread accepts tasks
    pending: seq<string>,   // SetApplicationLocaleOnIOThread tasks not yet run
    ioLocale: string,       // g_io_thread_application_locale
    ioReads: seq<string>)   // what GetApplicationLocale returned on the IO thread, in order

  const START := System("", false, [], "", [])

  datatype Event =
    | Sets(locale: string)   // BrowserProcessImpl::SetApplicationLocale
    | IoStarts
    | TaskRuns               // the IO thread runs its oldest task
    | IoReads

  function Step(s: System, e: Event): System {
    match e
    case Sets(l) =>
      if s.ioRunning then s.(locale := l, pending := s.pending + [l]) else s.(locale := l, ioLocale := l)
    case IoStarts => s.(ioRunning := true)
    case TaskRuns => if s.pending == [] then s else s.(ioLocale := s.pending[0], pending := s.pending[1..])
    case IoReads => if s.ioRunning then s.(ioReads := s.ioReads + [s.ioLocale]) else s
  }

  function Run(es: seq<Event>): System {
    if es == [] then START else Step(Run(es[..|es| - 1]), es[|es| - 1])
  }

  function HistoryStep(h: seq<string>, e: Event): seq<string> {
    if e.Sets? then h + [e.locale] else h
  }

  /** The values of the locale on the UI thread, the unset one first. */
  function History(es: seq<Event>): (h: seq<string>)
    ensures h != []
  {
    if es == [] then [""] else HistoryStep(History(es[..|es| - 1]), es[|es| - 1])
  }

  /** Places in the history, in order and none after `limit`, where the reads are found. */
  ghost predicate ReadInOrder(values: seq<string>, history: seq<string>, at: seq<nat>, limit: int) {
    && |at| == |values|
    && (forall i :: 0 <= i < |at| ==> at[i] < |history| && at[i] <= limit && values[i] == history[at[i]])
    && (forall i, j :: 0 <= i < j < |at| ==> at[i] <= at[j])
  }

  ghost predicate Agree(s: System, h: seq<string>) {
    && |s.pending| < |h|
    && s.ioLocale == h[|h| - 1 - |s.pending|]
    && s.pending == h[|h| - |s.pending|..]
    && s.locale == h[|h| - 1]
    && (!s.ioRunning ==> s.pending == [])
  }

  lemma StepKeepsAgree(s: System, h: seq<string>, e: Event)
    requires Agree(s, h)
    ensures Agree(Step(s, e), HistoryStep(h, e))
    ensures |h| - 1 - |s.pending| <= |HistoryStep(h, e)| - 1 - |Step(s, e).pending|
  {
    if e.TaskRuns? && s.pending != [] {
      assert h[|h| - |s.pending|..][1..] == h[|h| - |s.pending| + 1..];
    }
  }

  lemma {:induction false} RunAgrees(es: seq<Event>)
    ensures Agree(Run(es), History(es))
  {
    if es != [] {
      RunAgrees(es[..|es| - 1]);
      StepKeepsAgree(Run(es[..|es| - 1]), History(es[..|es| - 1]), es[|es| - 1]);
    }
  }

  /** For every interleaving of changes, the start of the IO thread and deliveries, the IO
      copy followed by the pending posts is the end of the UI thread's history; so the two
      agree when nothing is pending. */
  lemma LocalesAgree(es: seq<Event>)
    ensures var s := Run(es); var h := History(es);
      && |s.pending| < |h|
      && [s.ioLocale] + s.pending == h[|h| - 1 - |s.pending|..]
      && s.locale == h[|h| - 1]
      && (s.pending == [] ==> s.ioLocale == s.locale)
  {
    RunAgrees(es);
  }

  /** The IO thread catches up: once its pending tasks have run, the two copies agree, and the
      UI thread's copy has not changed. */
  lemma {:induction false} IoCatchesUp(es: seq<Event>) returns (more: seq<Event>)
    ensures forall e :: e in more ==> e == TaskRuns
    ensures |more| == |Run(es).pending|
    ensures Run(es + more).pending == [] && Run(es + more).locale == Run(es).locale
    ensures Run(es + more).ioLocale == Run(es).locale
    decreases |Run(es).pending|
  {
    if Run(es).pending == [] {
      more := [];
      assert es + more == es;
      LocalesAgree(es);
    } else {
      assert (es + [TaskRuns])[..|es|] == es;
      more := IoCatchesUp(es + [TaskRuns]);
      assert es + ([TaskRuns] + more) == es + [TaskRuns] + more;
      more := [TaskRuns] + more;
    }
  }

  lemma {:induction false} IoRunsIffStarted(es: seq<Event>)
    ensures Run(es).ioRunning <==> IoStarts in es
  {
    if es != [] {
      IoRunsIffStarted(es[..|es| - 1]);
      assert es == es[..|es| - 1] + [es[|es| - 1]];
    }
  }

  /** Before the IO thread exists a change reaches its copy at once; afterwards only the IO
      thread itself changes that copy, one task at a time, and a change on the UI thread waits
      behind the earlier ones. */
  lemma CopyChangesOnItsThread(es: seq<Event>, e: Event)
    ensures var s, s' := Run(es), Step(Run(es), e);
      && (e.Sets? && IoStarts !in es ==> s'.ioLocale == s'.locale == e.locale && s'.pending == s.pending == [])
      && (IoStarts in es && e != TaskRuns ==> s'.ioLocale == s.ioLocale)
      && (e.Sets? && IoStarts in es ==> s'.locale == e.locale && s'.pending == s.pending + [e.locale])
      && (e == TaskRuns && s.pending != [] ==> [s'.ioLocale] + s'.pending == s.pending && s'.locale == s.locale)
  {
    IoRunsIffStarted(es);
    RunAgrees(es);
  }

  /** Every read on the IO thread returns its copy. */
  lemma ReadsReturnTheCopy(es: seq<Event>)
    requires Run(es).ioRunning
    ensures Step(Run(es), IoReads) == Run(es).(ioReads := Run(es).ioReads + [Run(es).ioLocale])
  {
  }

  lemma ReadInOrderLater(values: seq<string>, h: seq<string>, at: seq<nat>, limit: int, h': seq<string>, limit': int)
    requires ReadInOrder(values, h, at, limit) && h <= h' && limit <= limit'
    ensures ReadInOrder(values, h', at, limit')
  {
  }

  lemma ReadInOrderSnoc(values: seq<string>, h: seq<string>, at: seq<nat>, k: nat)
    requires ReadInOrder(values, h, at, k) && k < |h|
    ensures ReadInOrder(values + [h[k]], h, at + [k], k)
  {
  }

  /** What the IO thread has read is an in-order selection from that history, never ahead of
      its copy. */
  lemma {:induction false} IoReadsInOrder(es: seq<Event>) returns (at: seq<nat>)
    ensures ReadInOrder(Run(es).ioReads, History(es), at, |History(es)| - 1 - |Run(es).pending|)
  {
    at := [];
    if es != [] {
      var before, e := es[..|es| - 1], es[|es| - 1];
      at := IoReadsInOrder(before);
      RunAgrees(before);
      at := ReadsAfter(Run(before), History(before), e, at);
    }
  }

  lemma ReadsAfter(s: System, h: seq<string>, e: Event, at: seq<nat>) returns (at': seq<nat>)
    requires Agree(s, h) && ReadInOrder(s.ioReads, h, at, |h| - 1 - |s.pending|)
    ensures var s', h' := Step(s, e), HistoryStep(h, e);
      ReadInOrder(s'.ioReads, h', at', |h'| - 1 - |s'.pending|)
  {
    var k := |h| - 1 - |s.pending|;
    if e.IoReads? && s.ioRunning {
      ReadInOrderSnoc(s.ioReads, h, at, k);
      at' := at + [k];
    } else {
      at' := at;
      StepKeepsAgree(s, h, e);
      ReadInOrderLater(s.ioReads, h, at, k, HistoryStep(h, e), |HistoryStep(h, e)| - 1 - |Step(s, e).pending|);
    }
  }

  class Browser {
    var locale: string
    var ioRunning: bool
    var pending: seq<string>
    var ioLocale: string
    var ioReads: seq<string>

    function State(): System
      reads this
    {
      System(locale, ioRunning, pending, ioLocale, ioReads)
    }

    constructor ()
      ensures State() == START
    {
      locale, ioRunning, pending, ioLocale, ioReads := "", false, [], "", [];
    }

    /** `BrowserThread::PostTask` on the IO thread fails before that thread exists. */
    method PostToIo(l: string) returns (posted: bool)
      modifies this`pending
      ensures posted == ioRunning
      ensures pending == if posted then old(pending) + [l] else old(pending)
    {
      posted := ioRunning;
      if posted {
        pending := pending + [l];
      }
    }

    method SetApplicationLocale(l: string)
      modifies this
      ensures State() == Step(old(State()), Sets(l))
      ensures locale == l && (ioRunning ==> ioLocale == old(ioLocale)) && (!ioRunning ==> ioLocale == l)
    {
      locale := l;
      var posted := PostToIo(l);
      if !posted {
        ioLocale := l;
      }
    }

    method RunIoTask()
      requires pending != []
      modifies this
      ensures State() == Step(old(State()), TaskRuns)
    {
      var l := pending[0];
      pending := pending[1..];
      ioLocale := l;
    }

    method GetApplicationLocale(onIo: bool) returns (l: string)
      requires onIo ==> ioRunning
      modifies this`ioReads
      ensures l == if onIo then ioLocale else locale
      ensures State() == if onIo then Step(old(State()), IoReads) else old(State())
    {
      if onIo {
        l := ioLocale;
        ioReads := ioReads + [l];
      } else {
        l := locale;
      }
    }
  }
}
