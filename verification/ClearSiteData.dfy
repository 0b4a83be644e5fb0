/**
 `ClearSiteData` of browser/chrome_content_browser_client.cc: each call makes an observer
 that counts two removal tasks, runs the caller's callback after the second and deletes
 itself.  Any number of calls may be under way; a removal may complete while it is being
 requested or at any later time.

 Calls are numbered in order.  A call keeps its number after its observer is gone, and
 remembers whether the observer was ever touched when it should not be.
 */
module ClearSiteData {

  datatype DataType = Cookies | ChannelIds | PluginData | DomStorage | Cache

  datatype Request = Request(cookies: bool, storage: bool, cache: bool)

  datatype Half = First | Second

  datatype Observer = Observer(
    live: bool,
    count: int,        // count_
    callbacks: nat,    // how often callback_ has run
    misused: bool)     // notified after `delete this`, or with count_ at zero

  datatype Call = Call(
    request: Request,
    issued: set<Half>,          // the halves ClearSiteData has come to
    pending: set<Half>,         // removals requested whose reply is outstanding
    completed: set<Half>,       // removal tasks that are over, no-ops included
    asked: set<DataType>,       // what the remover was asked to remove
    observer: Observer)

  type System = seq<Call>

  datatype Event =
    | Calls(request: Request)
    | Issues(i: nat, half: Half)     // ClearSiteData gets to one of its halves
    | Replies(i: nat, half: Half)    // the remover notifies the observer it was given

  // ---------------------------------------------------------------- one step

  function FirstMask(r: Request): set<DataType> {
    if r.cookies then {Cookies, ChannelIds, PluginData} else {}
  }

  function SecondMask(r: Request): set<DataType> {
    (if r.storage then {DomStorage} else {}) + (if r.cache then {Cache} else {})
  }

  function Mask(r: Request, half: Half): set<DataType> {
    if half == First then FirstMask(r) else SecondMask(r)
  }

  /** `OnBrowsingDataRemoverDone`. */
  function Notified(o: Observer): Observer {
    var o' := o.(count := o.count - 1, misused := o.misused || !o.live || o.count == 0);
    if o'.count != 0 then o' else o'.(callbacks := o.callbacks + 1, live := false)
  }

  function Completed(c: Call, half: Half): Call {
    c.(completed := c.completed + {half}, observer := Notified(c.observer))
  }

  /** A half with something to remove goes to the remover; one without is done at once. */
  function Issued(c: Call, half: Half): Call {
    var c' := c.(issued := c.issued + {half}, asked := c.asked + Mask(c.request, half));
    if Mask(c.request, half) != {} then c'.(pending := c.pending + {half}) else Completed(c', half)
  }

  function Replied(c: Call, half: Half): Call {
    Completed(c.(pending := c.pending - {half}), half)
  }

  function NewCall(r: Request): Call {
    Call(r, {}, {}, {}, {}, Observer(true, 2, 0, false))
  }

  /** The halves come in order and once; the remover replies once to each request. */
  predicate Enabled(s: System, e: Event) {
    match e
    case Calls(_) => true
    case Issues(i, half) => i < |s| && s[i].issued == if half == First then {} else {First}
    case Replies(i, half) => i < |s| && half in s[i].pending
  }

  function Step(s: System, e: Event): System {
    if !Enabled(s, e) then s else
    match e
    case Calls(r) => s + [NewCall(r)]
    case Issues(i, half) => s[i := Issued(s[i], half)]
    case Replies(i, half) => s[i := Replied(s[i], half)]
  }

  function Run(s: System, es: seq<Event>): System
    decreases es
  {
    if es == [] then s else Step(Run(s, es[..|es| - 1]), es[|es| - 1])
  }

  lemma RunSnoc(s: System, es: seq<Event>, e: Event)
    ensures Run(s, es + [e]) == Step(Run(s, es), e)
  {
    assert (es + [e])[..|es|] == es;
  }

  // ---------------------------------------------------------------- every run

  function Weight(halves: set<Half>): nat {
    (if First in halves then 1 else 0) + (if Second in halves then 1 else 0)
  }

  ghost predicate CallOk(c: Call) {
    && c.issued in {{}, {First}, {First, Second}}
    && c.completed + c.pending == c.issued && c.completed !! c.pending
    && c.observer.count == 2 - Weight(c.completed)
    && c.observer.callbacks == (if c.completed == {First, Second} then 1 else 0)
    && (c.observer.live <==> c.observer.callbacks == 0)
    && !c.observer.misused
    && c.asked == (if First in c.issued then FirstMask(c.request) else {})
                + (if Second in c.issued then SecondMask(c.request) else {})
  }

  lemma IssueKeepsCallOk(c: Call, half: Half)
    requires CallOk(c) && c.issued == if half == First then {} else {First}
    ensures CallOk(Issued(c, half))
  {
    assert Weight(c.completed) < 2;
    assert c.issued + {half} == if half == First then {First} else {First, Second};
  }

  lemma ReplyKeepsCallOk(c: Call, half: Half)
    requires CallOk(c) && half in c.pending
    ensures CallOk(Replied(c, half))
  {
    var completed := c.completed + {half};
    assert completed == {First, Second} <==> Weight(completed) == 2;
  }

  ghost predicate Inv(s: System) { forall i :: 0 <= i < |s| ==> CallOk(s[i]) }

  lemma StepKeepsInv(s: System, e: Event)
    requires Inv(s)
    ensures Inv(Step(s, e))
  {
    if Enabled(s, e) {
      match e
      case Calls(r) =>
      case Issues(i, half) => IssueKeepsCallOk(s[i], half);
      case Replies(i, half) => ReplyKeepsCallOk(s[i], half);
    }
  }

  lemma {:induction false} RunKeepsInv(s: System, es: seq<Event>)
    requires Inv(s)
    ensures Inv(Run(s, es))
    decreases es
  {
    if es != [] {
      RunKeepsInv(s, es[..|es| - 1]);
      StepKeepsInv(Run(s, es[..|es| - 1]), es[|es| - 1]);
    }
  }

  /** For any number of overlapping calls, every choice of data types and every order of
      completions: a callback runs at most once, exactly when both halves of its call are
      over; no observer is used after deleting itself or notified more than twice; the
      remover is asked for what the caller chose and nothing else; and a call that has
      issued both halves and waits for no reply has run its callback. */
  lemma CallbackOnceAfterBothHalves(es: seq<Event>)
    ensures forall c :: c in Run([], es) ==>
      && c.observer.callbacks == (if c.completed == {First, Second} then 1 else 0)
      && (c.observer.live <==> c.observer.callbacks == 0)
      && !c.observer.misused
      && c.asked <= FirstMask(c.request) + SecondMask(c.request)
      && (c.issued == {First, Second} ==>
            && c.asked == FirstMask(c.request) + SecondMask(c.request)
            && (c.pending == {} ==> c.observer.callbacks == 1))
  {
    RunKeepsInv([], es);
    forall c | c in Run([], es)
      ensures CallOk(c)
    {
      var i :| 0 <= i < |Run([], es)| && Run([], es)[i] == c;
    }
  }

  /** What the remover has been asked once both halves are issued, type by type: cookies and
      what belongs to them with the first half, storage and cache each as wanted. */
  lemma AskedByType(es: seq<Event>, c: Call)
    requires c in Run([], es) && c.issued == {First, Second}
    ensures Cookies in c.asked <==> c.request.cookies
    ensures ChannelIds in c.asked <==> c.request.cookies
    ensures PluginData in c.asked <==> c.request.cookies
    ensures DomStorage in c.asked <==> c.request.storage
    ensures Cache in c.asked <==> c.request.cache
  {
    CallbackOnceAfterBothHalves(es);
  }

  /** The first half waits for a reply only if cookies are to be removed, the second only if
      storage or the cache are. */
  lemma PendingByType(es: seq<Event>, i: nat)
    requires i < |Run([], es)|
    ensures var s := Run([], es);
      && (Enabled(s, Issues(i, First)) ==>
            (First in Step(s, Issues(i, First))[i].pending <==> s[i].request.cookies))
      && (Enabled(s, Issues(i, Second)) ==>
            (Second in Step(s, Issues(i, Second))[i].pending <==> s[i].request.storage || s[i].request.cache))
  {
    RunKeepsInv([], es);
    var c := Run([], es)[i];
    assert CallOk(c) && DomStorage in {DomStorage} && Cache in {Cache} && Cookies in {Cookies};
    assert c.request.storage ==> DomStorage in SecondMask(c.request);
    assert c.request.cache ==> Cache in SecondMask(c.request);
  }

  /** A call that has issued both halves is over once the outstanding replies have come, in
      either order. */
  lemma RepliesFinish(es: seq<Event>, i: nat)
    requires i < |Run([], es)| && Run([], es)[i].issued == {First, Second}
    ensures var s := Run([], es);
      var one := Step(Step(s, Replies(i, First)), Replies(i, Second));
      var other := Step(Step(s, Replies(i, Second)), Replies(i, First));
      && |one| == |other| == |s|
      && one[i].observer.callbacks == other[i].observer.callbacks == 1
      && !one[i].observer.live && !other[i].observer.live
  {
    RunKeepsInv([], es);
    var s := Run([], es);
    BothReplies(s, i, First, Second);
    BothReplies(s, i, Second, First);
  }

  lemma BothReplies(s: System, i: nat, a: Half, b: Half)
    requires Inv(s) && i < |s| && s[i].issued == {First, Second} && a != b
    ensures var after := Step(Step(s, Replies(i, a)), Replies(i, b));
      |after| == |s| && after[i].observer.callbacks == 1 && !after[i].observer.live
  {
    var one := Step(s, Replies(i, a));
    var after := Step(one, Replies(i, b));
    StepKeepsInv(s, Replies(i, a));
    StepKeepsInv(one, Replies(i, b));
    assert CallOk(s[i]) && CallOk(one[i]) && CallOk(after[i]);
    assert a !in after[i].pending && b !in after[i].pending && after[i].pending == {};
    assert after[i].completed == {First, Second};
  }

  /** A step of one call leaves every other call alone. */
  lemma CallsAreIndependent(s: System, e: Event, j: nat)
    requires j < |s| && (e.Issues? || e.Replies?) && e.i != j
    ensures |Step(s, e)| == |s| && Step(s, e)[j] == s[j]
  {
  }

  /** Call `i` itself issues its halves. */
  predicate LeavesAlone(es: seq<Event>, i: nat) {
    forall k :: 0 <= k < |es| ==> !(es[k].Issues? && es[k].i == i)
  }

  // ---------------------------------------------------------------- the code, in place

  class BrowserClient {
    var calls: seq<Call>

    constructor ()
      ensures calls == []
    {
      calls := [];
    }

    /** `OnBrowsingDataRemoverDone` of the i-th observer. */
    method OnBrowsingDataRemoverDone(i: nat, half: Half)
      requires i < |calls|
      modifies this
      ensures calls == old(calls)[i := Completed(old(calls)[i], half)]
    {
      var o := calls[i].observer;
      var misused := o.misused || !o.live || o.count == 0;
      var count, callbacks, live := o.count - 1, o.callbacks, o.live;
      if count == 0 {
        callbacks := callbacks + 1;
        live := false;
      }
      calls := calls[i := calls[i].(completed := calls[i].completed + {half},
                                    observer := Observer(live, count, callbacks, misused))];
    }

    /** One half, up to the call of the remover, or to the completion of a half with nothing to
        remove. */
    method IssueHalf(i: nat, half: Half)
      requires Enabled(calls, Issues(i, half))
      modifies this
      ensures calls == Step(old(calls), Issues(i, half))
    {
      var r := calls[i].request;
      var mask: set<DataType> := {};
      if half == First {
        if r.cookies {
          mask := {Cookies, ChannelIds, PluginData};
        }
      } else {
        if r.storage {
          mask := mask + {DomStorage};
        }
        if r.cache {
          mask := mask + {Cache};
        }
      }
      assert mask == Mask(r, half);
      calls := calls[i := calls[i].(issued := calls[i].issued + {half}, asked := calls[i].asked + mask)];
      if mask != {} {
        calls := calls[i := calls[i].(pending := calls[i].pending + {half})];
      } else {
        OnBrowsingDataRemoverDone(i, half);
      }
    }

    /** One event while a removal is being requested. */
    method OneStep(e: Event)
      modifies this
      ensures calls == Step(old(calls), e)
    {
      if Enabled(calls, e) {
        match e
        case Calls(r) => calls := calls + [NewCall(r)];
        case Issues(i, half) => IssueHalf(i, half);
        case Replies(i, half) =>
          calls := calls[i := calls[i].(pending := calls[i].pending - {half})];
          OnBrowsingDataRemoverDone(i, half);
      }
    }

    /** What happens before control returns from one half of call `i`: completions, and the
        callbacks they run, which may start further calls. */
    method Meanwhile(i: nat, es: seq<Event>)
      requires Inv(calls) && i < |calls|
      requires LeavesAlone(es, i)
      modifies this
      ensures calls == Run(old(calls), es) && Inv(calls) && |calls| >= |old(calls)|
      ensures calls[i].issued == old(calls)[i].issued && calls[i].request == old(calls)[i].request
    {
      ghost var before := calls;
      var k := 0;
      while k < |es|
        invariant 0 <= k <= |es| && calls == Run(before, es[..k])
        invariant Inv(calls) && |calls| >= |before|
        invariant calls[i].issued == before[i].issued && calls[i].request == before[i].request
      {
        RunSnoc(before, es[..k], es[k]);
        assert es[..k + 1] == es[..k] + [es[k]];
        StepKeepsInv(calls, es[k]);
        OneStep(es[k]);
        k := k + 1;
      }
      assert es[..|es|] == es;
    }

    /** One half with what happens during it. */
    method RunHalf(i: nat, half: Half, during: seq<Event>)
      requires Inv(calls) && Enabled(calls, Issues(i, half))
      requires LeavesAlone(during, i)
      modifies this
      ensures Inv(calls) && |calls| >= |old(calls)|
      ensures calls == Run(Step(old(calls), Issues(i, half)), during)
      ensures calls[i].issued == old(calls)[i].issued + {half} && calls[i].request == old(calls)[i].request
    {
      StepKeepsInv(calls, Issues(i, half));
      IssueHalf(i, half);
      Meanwhile(i, during);
    }

    /** `ClearSiteData`.  When it returns, its own callback has run if nothing of its own is
        outstanding, whatever completed or was started meanwhile. */
    method ClearSiteData(r: Request, duringFirst: seq<Event>, duringSecond: seq<Event>) returns (i: nat)
      requires Inv(calls)
      requires LeavesAlone(duringFirst, |calls|) && LeavesAlone(duringSecond, |calls|)
      modifies this
      ensures Inv(calls) && i == |old(calls)| < |calls|
      ensures calls == Run(Step(Run(Step(old(calls) + [NewCall(r)], Issues(i, First)), duringFirst),
                                Issues(i, Second)), duringSecond)
      ensures calls[i].request == r && calls[i].issued == {First, Second}
      ensures calls[i].asked == FirstMask(r) + SecondMask(r)
      ensures calls[i].observer.callbacks == if calls[i].pending == {} then 1 else 0
    {
      i := |calls|;
      StepKeepsInv(calls, Calls(r));
      calls := calls + [NewCall(r)];
      RunHalf(i, First, duringFirst);
      RunHalf(i, Second, duringSecond);
      assert CallOk(calls[i]);
    }
  }
}
