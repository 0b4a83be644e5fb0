/**
 Command-line switches whose value is a joined list: the origin-trial switches of
 browser/chrome_browser_main.cc and the blink-settings switch of
 browser/chrome_content_browser_client.cc.
 */
module JoinedSwitches {
  import opened Wrappers

  // ---------------------------------------------------------------- joining and splitting

  /** `base::JoinString` with a one-character separator. */
  function Join(items: seq<string>, sep: char): string {
    if items == [] then ""
    else if |items| == 1 then items[0]
    else Join(items[..|items| - 1], sep) + [sep] + items[|items| - 1]
  }

  /** The value taken apart at every separator, as the receiving process is assumed to do. */
  function Split(s: string, sep: char): (parts: seq<string>)
    ensures parts != []
  {
    if s == "" then [""] else
    var parts, c := Split(s[..|s| - 1], sep), s[|s| - 1];
    if c == sep then parts + [""] else parts[|parts| - 1 := parts[|parts| - 1] + [c]]
  }

  lemma SplitSeparator(s: string, sep: char)
    ensures Split(s + [sep], sep) == Split(s, sep) + [""]
  {
    assert (s + [sep])[..|s|] == s;
  }

  /** Text without a separator extends the last part. */
  lemma {:induction false} SplitExtends(s: string, t: string, sep: char)
    requires sep !in t
    ensures var parts := Split(s, sep);
      Split(s + t, sep) == parts[|parts| - 1 := parts[|parts| - 1] + t]
    decreases t
  {
    var parts := Split(s, sep);
    if t == "" {
      assert s + t == s && parts[|parts| - 1] + t == parts[|parts| - 1];
    } else {
      var n := |t| - 1;
      assert t == t[..n] + [t[n]];
      SplitExtends(s, t[..n], sep);
      assert (s + t)[..|s + t| - 1] == s + t[..n];
      assert (parts[|parts| - 1] + t[..n]) + [t[n]] == parts[|parts| - 1] + t;
    }
  }

  lemma SplitLastItem(front: string, item: string, sep: char)
    requires sep !in item
    ensures Split(front + [sep] + item, sep) == Split(front, sep) + [item]
  {
    SplitSeparator(front, sep);
    SplitExtends(front + [sep], item, sep);
    assert "" + item == item;
  }

  /** No item contains the separator. */
  predicate FreeOf(items: seq<string>, sep: char) {
    forall i :: 0 <= i < |items| ==> sep !in items[i]
  }

  lemma {:induction false} SplitUndoesJoin(items: seq<string>, sep: char)
    requires items != [] && FreeOf(items, sep)
    ensures Split(Join(items, sep), sep) == items
    decreases items
  {
    var n := |items| - 1;
    if n == 0 {
      SplitExtends("", items[0], sep);
      assert "" + items[0] == items[0];
    } else {
      SplitUndoesJoin(items[..n], sep);
      SplitLastItem(Join(items[..n], sep), items[n], sep);
      assert items[..n] + [items[n]] == items;
    }
  }

  /** Splitting gives one part more than there are separators. */
  lemma {:induction false} SplitCounts(s: string, sep: char)
    ensures |Split(s, sep)| == multiset(s)[sep] + 1
  {
    if s != "" {
      SplitCounts(s[..|s| - 1], sep);
      assert s == s[..|s| - 1] + [s[|s| - 1]];
    }
  }

  lemma {:induction false} JoinCounts(items: seq<string>, sep: char, k: nat)
    requires k < |items|
    ensures multiset(Join(items, sep))[sep] >= |items| - 1 + multiset(items[k])[sep]
    decreases items
  {
    var n := |items| - 1;
    if n > 0 {
      var front := Join(items[..n], sep);
      assert multiset(front + [sep] + items[n])[sep] == multiset(front)[sep] + 1 + multiset(items[n])[sep];
      JoinCounts(items[..n], sep, if k < n then k else 0);
    }
  }

  /** The joined value loses nothing exactly when no item contains the separator. */
  lemma JoinIsLosslessIff(items: seq<string>, sep: char)
    requires items != []
    ensures Split(Join(items, sep), sep) == items <==> FreeOf(items, sep)
  {
    if FreeOf(items, sep) {
      SplitUndoesJoin(items, sep);
    } else {
      var k :| 0 <= k < |items| && sep in items[k];
      JoinCounts(items, sep, k);
      SplitCounts(Join(items, sep), sep);
      assert multiset(items[k])[sep] > 0;
    }
  }

  // ---------------------------------------------------------------- origin trials

  datatype Switch =
    | OriginTrialPublicKey | OriginTrialDisabledFeatures | OriginTrialDisabledTokens
    | BlinkSettingsSwitch | OtherSwitch(name: string)

  type CommandLine = map<Switch, string>

  /** Local-state preferences; a list item that is not a string is `None`, and a missing
      list is `None`. */
  datatype OriginTrialPrefs = OriginTrialPrefs(
    publicKey: string,
    disabledFeatures: Option<seq<Option<string>>>,
    disabledTokens: Option<seq<Option<string>>>)

  function Strings(items: seq<Option<string>>): seq<string> {
    if items == [] then [] else
    Strings(items[..|items| - 1]) + (if items[|items| - 1].Some? then [items[|items| - 1].value] else [])
  }

  function WithSwitch(cl: CommandLine, name: Switch, value: string): CommandLine {
    if name in cl then cl else cl[name := value]
  }

  function WithJoined(cl: CommandLine, name: Switch, items: Option<seq<Option<string>>>): CommandLine {
    if items.None? || Strings(items.value) == [] then cl
    else WithSwitch(cl, name, Join(Strings(items.value), '|'))
  }

  function OriginTrials(cl: CommandLine, prefs: OriginTrialPrefs): CommandLine {
    var withKey := if prefs.publicKey == "" then cl else WithSwitch(cl, OriginTrialPublicKey, prefs.publicKey);
    var withFeatures := WithJoined(withKey, OriginTrialDisabledFeatures, prefs.disabledFeatures);
    WithJoined(withFeatures, OriginTrialDisabledTokens, prefs.disabledTokens)
  }

  /** Strings of a list, in order: everything that is not a string is passed over. */
  lemma {:induction false} StringsConcat(items: seq<Option<string>>, more: seq<Option<string>>)
    ensures Strings(items + more) == Strings(items) + Strings(more)
    decreases more
  {
    if more == [] {
      assert items + more == items;
    } else {
      assert (items + more)[..|items + more| - 1] == items + more[..|more| - 1];
      StringsConcat(items, more[..|more| - 1]);
    }
  }

  /** An item that is a string stands in the result behind the strings before it and in front
      of those behind it; any other item leaves no trace. */
  lemma StringsKeepExactly(items: seq<Option<string>>, i: nat)
    requires i < |items|
    ensures Strings(items) == Strings(items[..i])
         + (if items[i].Some? then [items[i].value] else []) + Strings(items[i + 1..])
  {
    assert items == items[..i + 1] + items[i + 1..];
    StringsConcat(items[..i + 1], items[i + 1..]);
    assert items[..i + 1][..i] == items[..i];
  }

  /** What origin-trial set-up adds: the public key as it is in the preferences, and each list
      as soon as it has a string, unless the switch was there; and nothing else. */
  lemma OriginTrialsAdd(cl: CommandLine, prefs: OriginTrialPrefs)
    ensures var after := OriginTrials(cl, prefs);
      && (OriginTrialPublicKey in after <==> OriginTrialPublicKey in cl || prefs.publicKey != "")
      && (OriginTrialPublicKey !in cl && prefs.publicKey != "" ==> after[OriginTrialPublicKey] == prefs.publicKey)
      && (OriginTrialDisabledFeatures in after
          <==> OriginTrialDisabledFeatures in cl || HasString(prefs.disabledFeatures))
      && (OriginTrialDisabledTokens in after <==> OriginTrialDisabledTokens in cl || HasString(prefs.disabledTokens))
      && (forall name :: name in after ==>
            name in cl || name in {OriginTrialPublicKey, OriginTrialDisabledFeatures, OriginTrialDisabledTokens})
  {
    HasStringIff(prefs.disabledFeatures);
    HasStringIff(prefs.disabledTokens);
  }

  predicate HasString(list: Option<seq<Option<string>>>) {
    list.Some? && exists i :: 0 <= i < |list.value| && list.value[i].Some?
  }

  lemma HasStringIff(list: Option<seq<Option<string>>>)
    ensures HasString(list) <==> list.Some? && Strings(list.value) != []
  {
    if list.Some? {
      if HasString(list) {
        var i :| 0 <= i < |list.value| && list.value[i].Some?;
        StringsKeepExactly(list.value, i);
      } else {
        NoStrings(list.value);
      }
    }
  }

  lemma {:induction false} NoStrings(items: seq<Option<string>>)
    requires forall i :: 0 <= i < |items| ==> items[i].None?
    ensures Strings(items) == []
  {
    if items != [] {
      NoStrings(items[..|items| - 1]);
    }
  }

  /** Setting up origin trials never touches a switch that is there, and doing it again, even
      after the preferences changed, changes nothing that was set. */
  lemma OriginTrialsKeepSwitches(cl: CommandLine, prefs: OriginTrialPrefs, later: OriginTrialPrefs)
    ensures var once := OriginTrials(cl, prefs);
      && (forall name :: name in cl ==> name in once && once[name] == cl[name])
      && OriginTrials(once, prefs) == once
      && (forall name :: name in once ==>
            name in OriginTrials(once, later) && OriginTrials(once, later)[name] == once[name])
  {
  }

  /** Splitting the switch gives back what was put in, in order. */
  ghost predicate Arrives(cl: CommandLine, name: Switch, items: seq<string>, sep: char) {
    name in cl && Split(cl[name], sep) == items
  }

  /** A list preference that decides a switch arrives exactly when no string of it contains
      the separator. */
  ghost predicate ArrivesIffFree(cl: CommandLine, after: CommandLine, name: Switch, list: Option<seq<Option<string>>>) {
    list.Some? && Strings(list.value) != [] && name !in cl ==>
      (Arrives(after, name, Strings(list.value), '|') <==> FreeOf(Strings(list.value), '|'))
  }

  lemma WithJoinedArrives(cl: CommandLine, name: Switch, list: Option<seq<Option<string>>>)
    ensures ArrivesIffFree(cl, WithJoined(cl, name, list), name, list)
  {
    if list.Some? && Strings(list.value) != [] {
      JoinIsLosslessIff(Strings(list.value), '|');
    }
  }

  /** Splitting gives back the disabled features, and the disabled tokens, in order, exactly
      when none of them contains the separator; unless the command line decided otherwise. */
  lemma OriginTrialsArriveIff(cl: CommandLine, prefs: OriginTrialPrefs)
    ensures var after := OriginTrials(cl, prefs);
      && ArrivesIffFree(cl, after, OriginTrialDisabledFeatures, prefs.disabledFeatures)
      && ArrivesIffFree(cl, after, OriginTrialDisabledTokens, prefs.disabledTokens)
  {
    var withKey := if prefs.publicKey == "" then cl else WithSwitch(cl, OriginTrialPublicKey, prefs.publicKey);
    var withFeatures := WithJoined(withKey, OriginTrialDisabledFeatures, prefs.disabledFeatures);
    WithJoinedArrives(withKey, OriginTrialDisabledFeatures, prefs.disabledFeatures);
    WithJoinedArrives(withFeatures, OriginTrialDisabledTokens, prefs.disabledTokens);
  }

  // ---------------------------------------------------------------- blink settings

  /** The parameters of one field trial, if the client is in a group that has any. */
  type TrialParams = Option<seq<(string, string)>>

  function Settings(params: seq<(string, string)>): seq<string> {
    seq(|params|, i requires 0 <= i < |params| => params[i].0 + "=" + params[i].1)
  }

  function BlinkSettings(trials: seq<TrialParams>): seq<string> {
    if trials == [] then [] else
    BlinkSettings(trials[..|trials| - 1])
    + (if trials[|trials| - 1].Some? then Settings(trials[|trials| - 1].value) else [])
  }

  /** The parameters of all trials, in order. */
  function AllParams(trials: seq<TrialParams>): seq<(string, string)> {
    if trials == [] then [] else
    AllParams(trials[..|trials| - 1])
    + (if trials[|trials| - 1].Some? then trials[|trials| - 1].value else [])
  }

  /** There is one setting for each parameter, in order: its key, "=", and its value. */
  lemma {:induction false} SettingsAre(trials: seq<TrialParams>)
    ensures |BlinkSettings(trials)| == |AllParams(trials)|
    ensures forall k :: 0 <= k < |AllParams(trials)| ==>
              BlinkSettings(trials)[k] == AllParams(trials)[k].0 + "=" + AllParams(trials)[k].1
    decreases trials
  {
    if trials != [] {
      SettingsAre(trials[..|trials| - 1]);
    }
  }

  function WithBlinkSettings(browserCl: CommandLine, cl: CommandLine, trials: seq<TrialParams>): CommandLine {
    if BlinkSettings(trials) == [] || BlinkSettingsSwitch in browserCl then cl
    else WithSwitch(cl, BlinkSettingsSwitch, Join(BlinkSettings(trials), ','))
  }

  /** No key and no value of any trial contains a comma. */
  predicate ParamsCommaFree(params: seq<(string, string)>) {
    forall k :: 0 <= k < |params| ==> ',' !in params[k].0 && ',' !in params[k].1
  }

  predicate TrialsCommaFree(trials: seq<TrialParams>) {
    forall t :: 0 <= t < |trials| && trials[t].Some? ==> ParamsCommaFree(trials[t].value)
  }

  /** Splitting gives back the settings of all trials, in order, exactly when no key or value
      contains a comma; unless a command line decided otherwise. */
  lemma BlinkSettingsArriveIff(browserCl: CommandLine, cl: CommandLine, trials: seq<TrialParams>)
    requires BlinkSettings(trials) != [] && BlinkSettingsSwitch !in browserCl && BlinkSettingsSwitch !in cl
    ensures Arrives(WithBlinkSettings(browserCl, cl, trials), BlinkSettingsSwitch, BlinkSettings(trials), ',')
       <==> TrialsCommaFree(trials)
    ensures |BlinkSettings(trials)| == |AllParams(trials)|
    ensures forall k :: 0 <= k < |AllParams(trials)| ==>
              BlinkSettings(trials)[k] == AllParams(trials)[k].0 + "=" + AllParams(trials)[k].1
  {
    JoinIsLosslessIff(BlinkSettings(trials), ',');
    CommaFreeIff(trials);
    SettingsAre(trials);
  }

  lemma SettingsCommaFreeIff(params: seq<(string, string)>)
    ensures FreeOf(Settings(params), ',') <==> ParamsCommaFree(params)
  {
    forall k | 0 <= k < |params|
      ensures ',' !in Settings(params)[k] <==> ',' !in params[k].0 && ',' !in params[k].1
    {
      assert Settings(params)[k] == params[k].0 + "=" + params[k].1;
    }
  }

  lemma FreeOfConcat(items: seq<string>, more: seq<string>, sep: char)
    ensures FreeOf(items + more, sep) <==> FreeOf(items, sep) && FreeOf(more, sep)
  {
    forall i | 0 <= i < |more|
      ensures more[i] == (items + more)[|items| + i]
    {
    }
    assert forall i :: 0 <= i < |items| ==> items[i] == (items + more)[i];
  }

  lemma {:induction false} CommaFreeIff(trials: seq<TrialParams>)
    ensures FreeOf(BlinkSettings(trials), ',') <==> TrialsCommaFree(trials)
    decreases trials
  {
    if trials != [] {
      var before, last := trials[..|trials| - 1], trials[|trials| - 1];
      CommaFreeIff(before);
      assert trials == before + [last];
      assert TrialsCommaFree(trials) <==> TrialsCommaFree(before) && (last.Some? ==> ParamsCommaFree(last.value));
      if last.Some? {
        SettingsCommaFreeIff(last.value);
        FreeOfConcat(BlinkSettings(before), Settings(last.value), ',');
      } else {
        assert BlinkSettings(trials) == BlinkSettings(before);
      }
    }
  }

  class SwitchSetup {
    var commandLine: CommandLine

    constructor (cl: CommandLine)
      ensures commandLine == cl
    {
      commandLine := cl;
    }

    /** One list preference: its strings, joined, unless the switch is there already. */
    method AppendJoined(name: Switch, list: Option<seq<Option<string>>>)
      modifies this
      ensures commandLine == WithJoined(old(commandLine), name, list)
    {
      if name in commandLine || list.None? {
        return;
      }
      var strings: seq<string> := [];
      var i := 0;
      while i < |list.value|
        invariant 0 <= i <= |list.value| && strings == Strings(list.value[..i])
      {
        assert list.value[..i + 1][..i] == list.value[..i];
        if list.value[i].Some? {
          strings := strings + [list.value[i].value];
        }
        i := i + 1;
      }
      assert list.value[..|list.value|] == list.value;
      if strings != [] {
        commandLine := commandLine[name := Join(strings, '|')];
      }
    }

    method SetupOriginTrialsCommandLine(prefs: OriginTrialPrefs)
      modifies this
      ensures commandLine == OriginTrials(old(commandLine), prefs)
    {
      if OriginTrialPublicKey !in commandLine {
        if prefs.publicKey != "" {
          commandLine := commandLine[OriginTrialPublicKey := prefs.publicKey];
        }
      }
      AppendJoined(OriginTrialDisabledFeatures, prefs.disabledFeatures);
      AppendJoined(OriginTrialDisabledTokens, prefs.disabledTokens);
    }

    /** `MaybeAppendBlinkSettingsSwitchForFieldTrial`; every trial is asked for its
        parameters before any switch is looked at. */
    method MaybeAppendBlinkSettings(browserCommandLine: CommandLine, trials: seq<TrialParams>)
      modifies this
      ensures commandLine == WithBlinkSettings(browserCommandLine, old(commandLine), trials)
    {
      var settings: seq<string> := [];
      var i := 0;
      while i < |trials|
        invariant 0 <= i <= |trials| && settings == BlinkSettings(trials[..i])
      {
        assert trials[..i + 1][..i] == trials[..i];
        if trials[i].Some? {
          var params := trials[i].value;
          ghost var before := settings;
          var k := 0;
          while k < |params|
            invariant 0 <= k <= |params| && settings == before + Settings(params)[..k]
          {
            settings := settings + [params[k].0 + "=" + params[k].1];
            k := k + 1;
          }
          assert Settings(params)[..|params|] == Settings(params);
        }
        i := i + 1;
      }
      assert trials[..|trials|] == trials;
      if settings == [] {
        return;
      }
      if BlinkSettingsSwitch in browserCommandLine || BlinkSettingsSwitch in commandLine {
        return;
      }
      commandLine := commandLine[BlinkSettingsSwitch := Join(settings, ',')];
    }
  }
}
