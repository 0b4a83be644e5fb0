/**
 Rewriting of WebUI URLs: the forward handlers of browser/browser_about_handler.cc and
 browser/chrome_content_browser_client.cc, and the reverse handler that computes the
 displayed URL.

 A URL is the record the handlers look at.  Host names, feature switches, the policy
 override, the URL fixer, host canonicalisation and the WebUI registry are parameters.
 */
module WebUiUrls {
  import opened Wrappers

  datatype Url = Url(scheme: string, host: string, path: string, query: Option<string>, ref: Option<string>)

  /** The host names and path names of url_constants that the handlers mention. */
  datatype Names = Names(
    about: string, chromeUrls: string, cache: string, networkViewCache: string,
    sync: string, syncInternals: string, extensions: string, uber: string,
    settings: string, settingsFrame: string, history: string, historyFrame: string,
    help: string, newTab: string, bookmarks: string,
    deprecatedExtensionsSubPage: string)

  datatype Env = Env(
    names: Names,
    chromeScheme: string,
    extensionsBuild: bool,        // BUILDFLAG(ENABLE_EXTENSIONS)
    android: bool,                // OS_ANDROID
    nativeAndroidHistory: bool,   // features::kNativeAndroidHistoryManager
    mdSettings: bool, mdHistory: bool, mdExtensions: bool,
    settingsWindow: bool,
    guest: bool,                  // ChromeOS guest session
    newTabOverride: Option<Url>,  // the policy's location, already parsed
    canonHost: string -> string,  // host canonicalisation done by ReplaceComponents
    fixup: Url -> Url,            // url_formatter::FixupURL
    useWebUI: Url -> bool)        // ChromeWebUIControllerFactory::UseWebUIForURL

  // ---------------------------------------------------------------- GURL

  /** With an authority a path starts with "/"; an empty one becomes "/". */
  function CanonPath(path: string): string {
    if path != "" && path[0] == '/' then path else "/" + path
  }

  predicate SlashFree(s: string) { '/' !in s }

  ghost predicate Canonical(env: Env, u: Url) {
    && (u.host != "" ==> u.path != "" && u.path[0] == '/')
    && SlashFree(u.host)
    && env.canonHost(u.host) == u.host
  }

  /** `ReplaceComponents` with a host and a path. */
  function ReplaceHostAndPath(env: Env, u: Url, host: string, path: string): Url {
    u.(host := env.canonHost(host), path := CanonPath(path))
  }

  /** `url.DomainIs(domain)`. */
  predicate DomainIs(host: string, domain: string) {
    || host == domain
    || (|host| > |domain| && host[|host| - |domain| - 1..] == "." + domain)
  }

  /** `p.find('/', from)`, with the length of `p` for `npos`. */
  function FindSlash(p: string, from: nat): (r: nat)
    requires from <= |p|
    ensures from <= r <= |p|
    ensures SlashFree(p[from..r])
    ensures r < |p| ==> p[r] == '/'
    decreases |p| - from
  {
    if from == |p| || p[from] == '/' then from
    else
      var r := FindSlash(p, from + 1);
      assert p[from..r] == [p[from]] + p[from + 1..r];
      r
  }

  /** The names are pairwise distinct, slash-free and canonical. */
  ghost predicate GoodNames(env: Env) {
    var n := env.names;
    var sources := {n.about, n.cache, n.sync, n.extensions, n.history, n.settings, n.help};
    && "" !in {n.about, n.cache, n.sync}
    && n.about !in {n.cache, n.sync, n.extensions, n.history, n.settings, n.help}
    && n.cache !in {n.sync, n.extensions, n.history, n.settings, n.help}
    && n.sync !in {n.extensions, n.history, n.settings, n.help}
    && n.extensions !in {n.history, n.settings, n.help}
    && n.history !in {n.settings, n.help}
    && n.settings != n.help
    && sources !! {n.chromeUrls, n.networkViewCache, n.syncInternals, n.uber, n.settingsFrame, n.historyFrame}
    && sources !! {n.newTab, n.bookmarks}
    && n.uber !in {n.chromeUrls, n.networkViewCache, n.syncInternals,
                   n.settingsFrame, n.historyFrame, n.newTab, n.bookmarks}
    && n.newTab !in {n.chromeUrls, n.networkViewCache, n.syncInternals, n.settingsFrame, n.historyFrame, n.bookmarks}
    && n.deprecatedExtensionsSubPage != n.help
    && (forall h :: h in ProductHosts(n) ==> h != "" && SlashFree(h) && env.canonHost(h) == h)
    && !DomainIs(n.newTab, n.bookmarks) && !DomainIs(n.newTab, n.history)
    && (forall h :: SlashFree(env.canonHost(h)) && env.canonHost(env.canonHost(h)) == env.canonHost(h))
  }

  /** The hosts that rewriting can produce. */
  function ProductHosts(n: Names): set<string> {
    {n.chromeUrls, n.networkViewCache, n.syncInternals, n.extensions, n.uber, n.settings,
     n.settingsFrame, n.history, n.historyFrame, n.help, n.newTab}
  }

  /** What is assumed of `FixupURL`: it yields canonical URLs, doing it again changes
      nothing, and canonical URLs on the browser's own hosts are already in order. */
  ghost predicate GoodFixup(env: Env) {
    && (forall u :: Canonical(env, env.fixup(u)))
    && (forall u :: env.fixup(env.fixup(u)) == env.fixup(u))
    && (forall u :: Canonical(env, u) && u.host in ProductHosts(env.names) ==> env.fixup(u) == u)
  }

  ghost predicate GoodEnv(env: Env) { GoodNames(env) && GoodFixup(env) }

  function PlainHost(h: string): string { if SlashFree(h) then h else "" }

  function PlainFixup(u: Url): Url { u.(host := PlainHost(u.host), path := CanonPath(u.path)) }

  /** Distinct letters for names, and a fixer that only completes paths. */
  ghost predicate Plain(env: Env) {
    && env.names == Names("a", "b", "c", "d", "e", "f", "g", "h", "i", "j", "k", "l", "m", "n", "o", "g")
    && (forall h :: env.canonHost(h) == PlainHost(h))
    && (forall u :: env.fixup(u) == PlainFixup(u))
  }

  lemma GoodNamesExist(env: Env)
    requires Plain(env)
    ensures GoodNames(env)
  {
  }

  lemma GoodFixupExists(env: Env)
    requires Plain(env)
    ensures GoodFixup(env)
  {
  }

  /** The assumptions can be met. */
  lemma GoodEnvExists(env: Env)
    requires Plain(env)
    ensures GoodEnv(env)
  {
    GoodNamesExist(env);
    GoodFixupExists(env);
  }

  // ---------------------------------------------------------------- what each handler yields

  /** A rewritten URL, and whether the handler claims it. */
  datatype Handled = Handled(url: Url, claimed: bool)

  /** Where `WillHandleBrowserAboutURL` sends a fixed-up URL: a new host, a new path or the
      old one when `None`; `None` for the whole when the URL is left alone. */
  datatype Target = Target(host: string, path: Option<string>)

  function AboutTarget(env: Env, u: Url): Target {
    var n := env.names;
    var stay := Target(u.host, None);
    var embed := Target(n.uber, Some(u.host + u.path));
    if u.host == n.about then Target(n.chromeUrls, None)
    else if u.host == n.cache then Target(n.networkViewCache, None)
    else if u.host == n.sync then Target(n.syncInternals, None)
    else if u.host == n.extensions && env.extensionsBuild then
      if env.mdExtensions then stay else embed
    else if u.host == n.settings && env.extensionsBuild && u.path == "/" + n.deprecatedExtensionsSubPage then
      Target(n.uber, Some(n.extensions))
    else if u.host == n.history then
      if env.android then (if env.nativeAndroidHistory then stay else Target(n.historyFrame, None))
      else if env.mdHistory then stay else embed
    else if u.host == n.settings then
      if env.mdSettings then stay
      else if env.settingsWindow then Target(n.settingsFrame, None) else embed
    else if u.host == n.help then
      if env.mdSettings then stay
      else if !env.settingsWindow then embed
      else Target(n.settingsFrame, if u.path in {"", "/"} then Some(n.help) else None)
    else stay
  }

  function MoveTo(env: Env, u: Url, t: Target): Url {
    if t.path.Some? then ReplaceHostAndPath(env, u, t.host, t.path.value)
    else u.(host := env.canonHost(t.host))
  }

  /** MD settings pages are final: no later handler sees them. */
  predicate MdSettingsPage(env: Env, u: Url) {
    && u.host == env.names.settings && env.mdSettings
    && !(env.extensionsBuild && u.path == "/" + env.names.deprecatedExtensionsSubPage)
  }

  function About(env: Env, u: Url): Handled {
    var v := env.fixup(u);
    if v.scheme != env.chromeScheme then Handled(v, false)
    else if MdSettingsPage(env, v) then Handled(v, true)
    else if v.host == env.names.help && env.mdSettings then Handled(v, false)
    else Handled(MoveTo(env, v, AboutTarget(env, v)), false)
  }

  function NewTabOverride(env: Env, u: Url): Handled {
    if u.scheme == env.chromeScheme && u.host == env.names.newTab && env.newTabOverride.Some?
    then Handled(env.newTabOverride.value, true)
    else Handled(u, false)
  }

  function AddUber(env: Env, u: Url): Url {
    ReplaceHostAndPath(env, u, env.names.uber, u.host + u.path)
  }

  function NewTabUrl(env: Env): Url {
    Url(env.chromeScheme, env.names.newTab, "/", None, None)
  }

  predicate HelpPage(env: Env, u: Url) {
    && env.mdSettings
    && (u.host == env.names.help || (u.host == env.names.uber && u.path in {"", "/"}))
  }

  /** The guest-session redirect of bookmarks and history to the new tab page. */
  predicate GuestRedirect(env: Env, u: Url) {
    && env.guest && u.scheme == env.chromeScheme
    && (DomainIs(u.host, env.names.bookmarks) || DomainIs(u.host, env.names.history))
    && !(u.host != "" && env.useWebUI(AddUber(env, u)))
    && env.useWebUI(u)
  }

  function WebUi(env: Env, u: Url): Handled {
    if HelpPage(env, u) then Handled(ReplaceHostAndPath(env, u, env.names.settings, env.names.help), true)
    else if GuestRedirect(env, u) then Handled(NewTabUrl(env), true)
    else Handled(u, (u.host != "" && env.useWebUI(AddUber(env, u))) || env.useWebUI(u))
  }

  /** The forward handlers in the order they are registered, up to the first that claims
      the URL. */
  function Forward(env: Env, u: Url): Url {
    var a := About(env, u);
    if a.claimed then a.url else
    var o := NewTabOverride(env, a.url);
    if o.claimed then o.url else WebUi(env, o.url).url
  }

  /** The first path segment and what follows it. */
  function FirstSegment(p: string): string
    requires p != ""
  {
    p[1..FindSlash(p, 1)]
  }

  function AfterSegment(p: string): string
    requires p != ""
  {
    p[FindSlash(p, 1)..]
  }

  predicate HasSegment(u: Url) { u.path != "" && FirstSegment(u.path) != "" }

  function RemoveUber(env: Env, u: Url): Handled {
    if u.host == env.names.uber && HasSegment(u)
    then Handled(ReplaceHostAndPath(env, u, FirstSegment(u.path), AfterSegment(u.path)), true)
    else Handled(u, false)
  }

  function Reverse(env: Env, u: Url): Handled {
    if env.mdSettings && u.host == env.names.settings then Handled(u, true)
    else if u.scheme != env.chromeScheme then Handled(u, false)
    else RemoveUber(env, u)
  }

  /** The displayed form of a URL after rewriting. */
  function Displayed(env: Env, u: Url): Url { Reverse(env, Forward(env, u)).url }

  // ---------------------------------------------------------------- the uber host

  lemma FindSlashUnique(p: string, from: nat, r: nat)
    requires from <= r <= |p|
    requires SlashFree(p[from..r]) && (r < |p| ==> p[r] == '/')
    ensures FindSlash(p, from) == r
  {
    var f := FindSlash(p, from);
    assert forall i :: from <= i < r ==> p[i] == p[from..r][i - from] && p[i] in p[from..r];
    assert forall i :: from <= i < f ==> p[i] == p[from..f][i - from] && p[i] in p[from..f];
  }

  /** The two parts of the path "/" + segment + rest. */
  lemma Segments(segment: string, rest: string)
    requires SlashFree(segment) && (rest != "" ==> rest[0] == '/')
    ensures FirstSegment("/" + segment + rest) == segment
    ensures AfterSegment("/" + segment + rest) == rest
  {
    var p := "/" + segment + rest;
    assert p[1..1 + |segment|] == segment && p[1 + |segment|..] == rest;
    FindSlashUnique(p, 1, 1 + |segment|);
  }

  lemma CanonPathOfJoined(host: string, path: string)
    requires host != "" && SlashFree(host)
    ensures CanonPath(host + path) == "/" + host + path
  {
    assert (host + path)[0] == host[0] && host[0] in host;
  }

  /** Removing the uber host undoes adding it, for every URL with a host. */
  lemma RemoveAfterAdd(env: Env, u: Url)
    requires GoodNames(env) && Canonical(env, u) && u.host != ""
    ensures RemoveUber(env, AddUber(env, u)) == Handled(u, true)
  {
    CanonPathOfJoined(u.host, u.path);
    Segments(u.host, u.path);
  }

  /** Removal succeeds exactly on the uber host with a non-empty first segment. */
  lemma RemoveSucceedsIff(env: Env, u: Url)
    requires GoodNames(env) && Canonical(env, u)
    ensures RemoveUber(env, u).claimed <==> u.host == env.names.uber && |u.path| > 1 && u.path[1] != '/'
    ensures !RemoveUber(env, u).claimed ==> RemoveUber(env, u).url == u
  {
    if u.host == env.names.uber {
      assert u.path != "";
      if |u.path| > 1 && u.path[1] == '/' {
        FindSlashUnique(u.path, 1, 1);
      }
      if |u.path| > 1 && FirstSegment(u.path) == "" {
        assert FindSlash(u.path, 1) == 1;
      }
    }
  }

  /** Where a path is cut decides whether it has a second "/". */
  lemma SecondSlash(p: string)
    requires p != "" && p[0] == '/'
    ensures p == "/" + FirstSegment(p) + AfterSegment(p)
    ensures SlashFree(FirstSegment(p))
    ensures AfterSegment(p) != "" <==> '/' in p[1..]
    ensures AfterSegment(p) != "" ==> AfterSegment(p)[0] == '/'
  {
    var cut := FindSlash(p, 1);
    if cut < |p| {
      assert p[1..][cut - 1] == '/';
    } else {
      assert p[1..cut] == p[1..];
    }
  }

  lemma OtherHostIsNotRestored(p: string, host: string)
    requires p != "" && p[0] == '/' && FirstSegment(p) != ""
    requires SlashFree(host) && host != FirstSegment(p)
    ensures CanonPath(host + CanonPath(AfterSegment(p))) != p
  {
    SecondSlash(p);
    var path := CanonPath(AfterSegment(p));
    if host == "" {
      assert host + path == path;
    } else {
      CanonPathOfJoined(host, path);
      Segments(host, path);
    }
  }

  /** Adding the host again restores the URL exactly when the segment that became the host
      was a canonical host and the path had a second "/"; with a canonical segment and no
      second "/", it only gains a trailing one. */
  lemma AddAfterRemove(env: Env, u: Url)
    requires GoodNames(env) && Canonical(env, u) && RemoveUber(env, u).claimed
    ensures var segment := FirstSegment(u.path);
      var again := AddUber(env, RemoveUber(env, u).url);
      && (again == u <==> env.canonHost(segment) == segment && '/' in u.path[1..])
      && (env.canonHost(segment) == segment && '/' !in u.path[1..] ==> again == u.(path := u.path + "/"))
  {
    var segment := FirstSegment(u.path);
    var path := CanonPath(AfterSegment(u.path));
    SecondSlash(u.path);
    assert RemoveUber(env, u).url.path == path;
    if env.canonHost(segment) == segment {
      CanonPathOfJoined(segment, path);
    } else {
      OtherHostIsNotRestored(u.path, env.canonHost(segment));
    }
  }

  // ---------------------------------------------------------------- fixed points

  /** The about handler moves a URL at most once: what it yields, it leaves alone. */
  lemma AboutSettles(env: Env, u: Url)
    requires GoodEnv(env)
    ensures var a := About(env, u);
      && Canonical(env, a.url)
      && About(env, a.url) == a
      && (a.url != env.fixup(u) ==> a.url.host in ProductHosts(env.names) && a.url.host != env.names.newTab)
      && (a.claimed ==> a.url == env.fixup(u))
  {
    var v := env.fixup(u);
    var t := AboutTarget(env, v);
    var a := About(env, u);
    assert env.fixup(v) == v && Canonical(env, v);
    if a.url != v {
      MovedToProduct(env, v);
    }
  }

  /** The hosts to which the about handler moves URLs. */
  function MoveTargets(n: Names): set<string> {
    {n.chromeUrls, n.networkViewCache, n.syncInternals, n.uber, n.settingsFrame, n.historyFrame}
  }

  lemma MoveTargetIsLeftAlone(env: Env, w: Url)
    requires GoodEnv(env) && Canonical(env, w) && w.scheme == env.chromeScheme
    requires w.host in MoveTargets(env.names)
    ensures w.host in ProductHosts(env.names) && w.host != env.names.newTab
    ensures About(env, w) == Handled(w, false)
  {
    assert AboutTarget(env, w) == Target(w.host, None);
  }

  lemma MovedToProduct(env: Env, v: Url)
    requires GoodEnv(env) && Canonical(env, v) && v.scheme == env.chromeScheme
    requires MoveTo(env, v, AboutTarget(env, v)) != v
    ensures var w := MoveTo(env, v, AboutTarget(env, v));
      && w.host in ProductHosts(env.names) && w.host != env.names.newTab
      && Canonical(env, w)
      && About(env, w) == Handled(w, false)
  {
    var w := MoveTo(env, v, AboutTarget(env, v));
    assert AboutTarget(env, v).host in MoveTargets(env.names);
    assert v.host != "" && Canonical(env, w);
    MoveTargetIsLeftAlone(env, w);
  }

  /** `u` moved into the uber page, under its own host. */
  function Embedded(env: Env, u: Url): Url {
    u.(host := env.names.uber, path := "/" + u.host + u.path)
  }

  /** Where the about handler sends chrome-scheme URLs, read off the page they name: aliases
      and history ... */
  ghost predicate AliasTable(env: Env, u: Url, w: Url) {
    var n := env.names;
    && (u.host == n.about ==> w == u.(host := n.chromeUrls))
    && (u.host == n.cache ==> w == u.(host := n.networkViewCache))
    && (u.host == n.sync ==> w == u.(host := n.syncInternals))
    && (u.host == n.extensions ==> w == if env.extensionsBuild && !env.mdExtensions then Embedded(env, u) else u)
    && (u.host == n.history && !env.android ==> w == if env.mdHistory then u else Embedded(env, u))
    && (u.host == n.history && env.android ==>
          w == if env.nativeAndroidHistory then u else u.(host := n.historyFrame))
  }

  /** ... settings and help, and all others. */
  ghost predicate SettingsTable(env: Env, u: Url, w: Url) {
    var n := env.names;
    var deprecated := u.path == "/" + n.deprecatedExtensionsSubPage;
    && (u.host == n.settings && deprecated && env.extensionsBuild ==>
          w == u.(host := n.uber, path := "/" + n.extensions))
    && (u.host == n.settings && !(deprecated && env.extensionsBuild) ==>
          w == if env.mdSettings then u
               else if env.settingsWindow then u.(host := n.settingsFrame) else Embedded(env, u))
    && (u.host == n.help && env.mdSettings ==> w == u)
    && (u.host == n.help && !env.mdSettings && !env.settingsWindow ==> w == Embedded(env, u))
    && (u.host == n.help && !env.mdSettings && env.settingsWindow ==>
          w == if u.path == "/" then u.(host := n.settingsFrame, path := "/" + n.help)
               else u.(host := n.settingsFrame))
    && (u.host !in {n.about, n.cache, n.sync, n.extensions, n.history, n.settings, n.help} ==> w == u)
  }

  /** The about handler follows these tables, after fixing the URL up, and leaves URLs of other
      schemes alone; it claims exactly the material-design settings pages. */
  lemma AboutFollowsTable(env: Env, u: Url)
    requires GoodEnv(env)
    ensures var v, a := env.fixup(u), About(env, u);
      && (v.scheme == env.chromeScheme ==> AliasTable(env, v, a.url) && SettingsTable(env, v, a.url))
      && (v.scheme != env.chromeScheme ==> a.url == v)
      && (a.claimed <==> v.scheme == env.chromeScheme && v.host == env.names.settings && env.mdSettings
                         && !(env.extensionsBuild && v.path == "/" + env.names.deprecatedExtensionsSubPage))
  {
    var v := env.fixup(u);
    if v.scheme == env.chromeScheme {
      FollowsAliasTable(env, u);
      FollowsSettingsTable(env, u);
    }
  }

  lemma FollowsAliasTable(env: Env, u: Url)
    requires GoodEnv(env) && env.fixup(u).scheme == env.chromeScheme
    ensures AliasTable(env, env.fixup(u), About(env, u).url)
  {
    MoveTargetsAreHosts(env);
    if env.fixup(u).host in {env.names.extensions, env.names.history} {
      EmbeddedIs(env, env.fixup(u));
    }
  }

  lemma FollowsSettingsTable(env: Env, u: Url)
    requires GoodEnv(env) && env.fixup(u).scheme == env.chromeScheme
    ensures SettingsTable(env, env.fixup(u), About(env, u).url)
  {
    MoveTargetsAreHosts(env);
    if env.fixup(u).host in {env.names.settings, env.names.help} {
      EmbeddedIs(env, env.fixup(u));
    }
  }

  lemma EmbeddedIs(env: Env, v: Url)
    requires GoodEnv(env) && Canonical(env, v)
    requires v.host in {env.names.extensions, env.names.history, env.names.settings, env.names.help}
    ensures ReplaceHostAndPath(env, v, env.names.uber, v.host + v.path) == Embedded(env, v)
  {
    EmbeddedHosts(env);
    MoveTargetsAreHosts(env);
    CanonPathOfJoined(v.host, v.path);
  }

  lemma MoveTargetsAreHosts(env: Env)
    requires GoodEnv(env)
    ensures forall h :: h in MoveTargets(env.names) ==> env.canonHost(h) == h
    ensures CanonPath(env.names.extensions) == "/" + env.names.extensions
    ensures CanonPath(env.names.help) == "/" + env.names.help
  {
    var n := env.names;
    assert MoveTargets(n) <= ProductHosts(n) && n.extensions in ProductHosts(n) && n.help in ProductHosts(n);
    assert n.extensions[0] in n.extensions && n.help[0] in n.help;
  }

  /** A host, or one of its subdomains. */
  ghost predicate Under(host: string, domain: string) {
    host == domain || exists sub :: host == sub + "." + domain
  }

  lemma DomainIsUnder(host: string, domain: string)
    ensures DomainIs(host, domain) <==> Under(host, domain)
  {
    if host != domain && DomainIs(host, domain) {
      var k := |host| - |domain| - 1;
      assert host == host[..k] + host[k..];
      assert host == host[..k] + "." + domain;
    }
    if host != domain && Under(host, domain) {
      var sub :| host == sub + "." + domain;
      assert host[|sub|..] == "." + domain;
    }
  }

  /** There is a registered page for the URL inside the uber page. */
  predicate InUber(env: Env, u: Url) { u.host != "" && env.useWebUI(Embedded(env, u)) }

  /** What the WebUI handler claims and where it sends it: help pages to the settings page's
      help, with the material-design settings; a guest's bookmarks and history, and their
      subdomains, to the plain new tab page; everything else stays. */
  lemma WebUiDecides(env: Env, u: Url)
    requires GoodNames(env) && Canonical(env, u)
    ensures var n, h := env.names, WebUi(env, u);
      var help := env.mdSettings && (u.host == n.help || (u.host == n.uber && u.path in {"", "/"}));
      var sentAway := env.guest && u.scheme == env.chromeScheme && env.useWebUI(u) && !InUber(env, u)
        && (Under(u.host, n.bookmarks) || Under(u.host, n.history));
      && (h.claimed <==> help || InUber(env, u) || env.useWebUI(u))
      && h.url == if help then u.(host := n.settings, path := "/" + n.help)
                  else if sentAway then Url(env.chromeScheme, n.newTab, "/", None, None) else u
  {
    var n := env.names;
    assert n.uber in ProductHosts(n) && n.settings in ProductHosts(n) && n.help in ProductHosts(n);
    assert n.help[0] in n.help;
    if u.host != "" {
      CanonPathOfJoined(u.host, u.path);
      assert AddUber(env, u) == Embedded(env, u);
    }
    DomainIsUnder(u.host, n.bookmarks);
    DomainIsUnder(u.host, n.history);
  }

  /** What the reverse handler claims and what it makes of it: settings pages, with the
      material-design settings, as they are; a page inside the uber page under its own host. */
  lemma ReverseDecides(env: Env, u: Url)
    requires GoodNames(env) && Canonical(env, u)
    ensures var h := Reverse(env, u);
      var settings := env.mdSettings && u.host == env.names.settings;
      var inside := u.scheme == env.chromeScheme && u.host == env.names.uber && |u.path| > 1 && u.path[1] != '/';
      && (h.claimed <==> settings || inside)
      && (settings || !inside ==> h.url == u)
      && (!settings && inside ==>
            forall host, rest :: SlashFree(host) && (rest != "" ==> rest[0] == '/') && u.path == "/" + host + rest ==>
              h.url == u.(host := env.canonHost(host), path := if rest == "" then "/" else rest))
  {
    RemoveSucceedsIff(env, u);
    forall host, rest | SlashFree(host) && (rest != "" ==> rest[0] == '/') && u.path == "/" + host + rest
      ensures FirstSegment(u.path) == host && AfterSegment(u.path) == rest
    {
      Segments(host, rest);
    }
  }

  /** A URL that the about handler and the WebUI handler both leave alone is a fixed point,
      unless it is the overridden new tab page. */
  lemma FixedPoint(env: Env, w: Url, claimed: bool)
    requires About(env, w) == Handled(w, claimed)
    requires claimed || (!NewTabOverride(env, w).claimed && WebUi(env, w).url == w)
    ensures Forward(env, w) == w
  {
  }

  /** The policy's new tab override applies to `u`. */
  predicate Overridden(env: Env, u: Url) {
    && env.newTabOverride.Some?
    && env.fixup(u).scheme == env.chromeScheme && env.fixup(u).host == env.names.newTab
  }

  /** The guest-session redirect applies to `u`. */
  predicate GuestRedirected(env: Env, u: Url) {
    var a := About(env, u);
    !a.claimed && !HelpPage(env, a.url) && GuestRedirect(env, a.url)
  }

  lemma OverriddenIff(env: Env, u: Url)
    requires GoodEnv(env)
    ensures !About(env, u).claimed && NewTabOverride(env, About(env, u).url).claimed <==> Overridden(env, u)
  {
    AboutSettles(env, u);
  }

  lemma NewTabIsFixed(env: Env)
    requires GoodEnv(env)
    ensures Forward(env, NewTabUrl(env))
         == if env.newTabOverride.Some? then env.newTabOverride.value else NewTabUrl(env)
  {
    var w := NewTabUrl(env);
    assert Canonical(env, w) && env.fixup(w) == w;
    assert AboutTarget(env, w) == Target(w.host, None);
    assert !HelpPage(env, w) && !GuestRedirect(env, w);
  }

  lemma HelpPageIsFixed(env: Env, u: Url)
    requires GoodEnv(env) && Canonical(env, u) && HelpPage(env, u)
    ensures Forward(env, WebUi(env, u).url) == WebUi(env, u).url
  {
    HelpPageIsAboutFixed(env, u);
  }

  lemma HelpPageIsAboutFixed(env: Env, u: Url)
    requires GoodEnv(env) && Canonical(env, u) && HelpPage(env, u)
    ensures var w := WebUi(env, u).url;
      && About(env, w).url == w && w.host == env.names.settings
      && (w.scheme == env.chromeScheme ==> About(env, w).claimed)
  {
    var n := env.names;
    var w := WebUi(env, u).url;
    assert n.help[0] in n.help;
    assert w == u.(host := n.settings, path := "/" + n.help);
    assert Canonical(env, w) && env.fixup(w) == w;
    assert ("/" + n.help)[1..] == n.help;
    assert ("/" + n.deprecatedExtensionsSubPage)[1..] == n.deprecatedExtensionsSubPage;
  }

  /** The about handler would move this chrome-scheme URL. */
  predicate AboutMoves(env: Env, w: Url) {
    var n := env.names;
    && w.scheme == env.chromeScheme
    && (|| w.host in {n.about, n.cache, n.sync}
        || (w.host == n.extensions && env.extensionsBuild && !env.mdExtensions)
        || (w.host == n.settings && env.extensionsBuild && w.path == "/" + n.deprecatedExtensionsSubPage)
        || (w.host == n.history && if env.android then !env.nativeAndroidHistory else !env.mdHistory)
        || (w.host in {n.settings, n.help} && !env.mdSettings))
  }

  /** No handler rewrites `w`; read off the handlers' guards, without running any. */
  predicate Settled(env: Env, w: Url) {
    if Overridden(env, w) then env.newTabOverride == Some(w)
    else
      && env.fixup(w) == w
      && !AboutMoves(env, w)
      && (|| (w.scheme == env.chromeScheme && MdSettingsPage(env, w))
          || (!HelpPage(env, w) && !GuestRedirect(env, w)))
  }

  lemma AboutMovesIff(env: Env, w: Url)
    requires GoodEnv(env)
    ensures About(env, w).url == w <==> env.fixup(w) == w && !AboutMoves(env, w)
  {
    AboutSettles(env, w);
    if env.fixup(w) == w && w.scheme == env.chromeScheme {
      if !MdSettingsPage(env, w) && !(w.host == env.names.help && env.mdSettings) {
        MovedIff(env, w);
      }
    }
  }

  lemma MovedIff(env: Env, w: Url)
    requires GoodEnv(env) && Canonical(env, w) && w.scheme == env.chromeScheme
    requires !MdSettingsPage(env, w) && !(w.host == env.names.help && env.mdSettings)
    ensures MoveTo(env, w, AboutTarget(env, w)) == w <==> !AboutMoves(env, w)
  {
    var n := env.names;
    if AboutMoves(env, w) {
      assert AboutTarget(env, w).host in MoveTargets(n);
      assert w.host !in MoveTargets(n);
    } else {
      assert AboutTarget(env, w) == Target(w.host, None);
    }
  }

  lemma WebUiLeavesIff(env: Env, w: Url)
    requires GoodEnv(env)
    ensures WebUi(env, w).url == w <==> !HelpPage(env, w) && !GuestRedirect(env, w)
  {
  }

  /** What the WebUI handler rewrites to, the about handler leaves alone. */
  lemma RewrittenIsAboutFixed(env: Env, a: Url)
    requires GoodEnv(env) && Canonical(env, a)
    requires WebUi(env, a).url != a
    ensures About(env, WebUi(env, a).url).url == WebUi(env, a).url
  {
    var w := WebUi(env, a).url;
    if HelpPage(env, a) {
      HelpPageIsAboutFixed(env, a);
    } else {
      assert w == NewTabUrl(env) && AboutTarget(env, w) == Target(w.host, None);
    }
  }

  /** A URL is a fixed point of the whole chain exactly when it is settled. */
  lemma FixedIffSettled(env: Env, w: Url)
    requires GoodEnv(env)
    ensures Forward(env, w) == w <==> Settled(env, w)
  {
    var a := About(env, w);
    AboutSettles(env, w);
    OverriddenIff(env, w);
    AboutMovesIff(env, w);
    if a.claimed {
      assert a.url == env.fixup(w);
    } else if !Overridden(env, w) {
      WebUiLeavesIff(env, a.url);
      if a.url != w && WebUi(env, a.url).url == w {
        RewrittenIsAboutFixed(env, a.url);
        assert false;
      }
    }
  }

  /** Applying the forward handlers twice.  Under every combination of switches one
      application lands on a fixed point, except where the policy's override leads to a
      location that some handler rewrites, and where a guest is sent to an overridden new tab
      page. */
  lemma ForwardIdempotentIff(env: Env, u: Url)
    requires GoodEnv(env)
    ensures Forward(env, Forward(env, u)) == Forward(env, u) <==>
            if Overridden(env, u) then Settled(env, env.newTabOverride.value)
            else if GuestRedirected(env, u) then env.newTabOverride in {None, Some(NewTabUrl(env))}
            else true
  {
    var a := About(env, u);
    AboutSettles(env, u);
    OverriddenIff(env, u);
    if a.claimed {
    } else if Overridden(env, u) {
      FixedIffSettled(env, env.newTabOverride.value);
    } else if HelpPage(env, a.url) {
      HelpPageIsFixed(env, a.url);
    } else if GuestRedirect(env, a.url) {
      NewTabIsFixed(env);
    } else {
      FixedPoint(env, a.url, false);
    }
  }

  /** Such a case: the policy sends new tabs to chrome://sync/, which is itself moved. */
  lemma OverrideCanBreakIdempotence(env: Env)
    requires GoodEnv(env)
    requires env.newTabOverride == Some(Url(env.chromeScheme, env.names.sync, "/", None, None))
    requires env.fixup(env.newTabOverride.value) == env.newTabOverride.value
    ensures Forward(env, Forward(env, NewTabUrl(env))) != Forward(env, NewTabUrl(env))
  {
    var n := env.names;
    var w := env.newTabOverride.value;
    NewTabIsFixed(env);
    assert n.syncInternals in ProductHosts(n);
    assert About(env, w) == Handled(w.(host := n.syncInternals), false);
    assert Forward(env, w).host != n.sync;
  }

  /** The other case: a guest's bookmarks become the new tab page, which the policy sends
      elsewhere. */
  lemma GuestCanBreakIdempotence(env: Env, u: Url)
    requires GoodEnv(env) && env.guest
    requires u == Url(env.chromeScheme, env.names.bookmarks, "/", None, None) && env.fixup(u) == u
    requires env.useWebUI(u) && !env.useWebUI(AddUber(env, u))
    requires env.newTabOverride.Some? && env.newTabOverride.value != NewTabUrl(env)
    ensures Forward(env, Forward(env, u)) != Forward(env, u)
  {
    assert AboutTarget(env, u) == Target(u.host, None);
    assert About(env, u) == Handled(u, false);
    NewTabIsFixed(env);
  }

  /** With neither an override nor a guest session: idempotent on every URL, and scheme,
      query and reference survive. */
  lemma ForwardIdempotent(env: Env, u: Url)
    requires GoodEnv(env) && env.newTabOverride.None? && !env.guest
    ensures var w := Forward(env, u);
      && Forward(env, w) == w
      && w.scheme == env.fixup(u).scheme && w.query == env.fixup(u).query && w.ref == env.fixup(u).ref
  {
    ForwardIdempotentIff(env, u);
    HandlersKeepTheRest(env, u);
  }

  lemma HandlersKeepTheRest(env: Env, u: Url)
    requires env.newTabOverride.None? && !env.guest
    ensures var v, w := env.fixup(u), Forward(env, u);
      w.scheme == v.scheme && w.query == v.query && w.ref == v.ref
  {
  }

  // ---------------------------------------------------------------- the displayed URL

  /** When a URL is displayed as it was typed. */
  predicate ShownAsTyped(env: Env, u: Url) {
    var n := env.names;
    if u.host in {n.about, n.cache, n.sync} then false
    else if u.host == n.settings then
      && !(env.extensionsBuild && u.path == "/" + n.deprecatedExtensionsSubPage)
      && (env.mdSettings || !env.settingsWindow)
    else if u.host == n.help then !env.mdSettings && !env.settingsWindow
    else if u.host == n.history then env.android ==> env.nativeAndroidHistory
    else if u.host == n.uber then (|u.path| > 1 && u.path[1] == '/') || (u.path == "/" && !env.mdSettings)
    else true
  }

  /** A page embedded in the uber page is displayed under its own host. */
  lemma EmbeddedIsShown(env: Env, u: Url, host: string)
    requires GoodEnv(env) && Canonical(env, u) && u.scheme == env.chromeScheme
    requires host == u.host && host in ProductHosts(env.names)
    ensures Reverse(env, ReplaceHostAndPath(env, u, env.names.uber, host + u.path)).url == u
  {
    RemoveAfterAdd(env, u);
  }

  /** The environment without policy override and guest session. */
  function Ordinary(env: Env): Env { env.(newTabOverride := None, guest := false) }

  lemma OrdinaryIsGood(env: Env)
    requires GoodEnv(env)
    ensures GoodEnv(Ordinary(env))
  {
    assert GoodNames(Ordinary(env));
    assert GoodFixup(Ordinary(env));
  }

  /** Where neither applies, the handlers do what they do without them. */
  lemma OrdinaryForward(env: Env, u: Url)
    requires GoodEnv(env) && !Overridden(env, u) && !GuestRedirected(env, u)
    ensures Displayed(env, u) == Displayed(Ordinary(env), u)
  {
    OverriddenIff(env, u);
    OrdinaryAbout(env, u);
    if !About(env, u).claimed {
      OrdinaryWebUi(env, About(env, u).url);
    }
    OrdinaryReverse(env, Forward(env, u));
  }

  lemma OrdinaryAbout(env: Env, u: Url)
    ensures About(Ordinary(env), u) == About(env, u)
  {
    var v := env.fixup(u);
    assert AboutTarget(Ordinary(env), v) == AboutTarget(env, v);
  }

  lemma OrdinaryWebUi(env: Env, u: Url)
    requires HelpPage(env, u) || !GuestRedirect(env, u)
    ensures WebUi(Ordinary(env), u).url == WebUi(env, u).url
  {
  }

  lemma OrdinaryReverse(env: Env, u: Url)
    ensures Reverse(Ordinary(env), u) == Reverse(env, u)
  {
  }

  lemma GuestSeesNewTab(env: Env, u: Url)
    requires GoodEnv(env) && !Overridden(env, u) && GuestRedirected(env, u) && env.fixup(u) == u
    ensures Displayed(env, u) == NewTabUrl(env) != u
  {
    OverriddenIff(env, u);
    assert Forward(env, u) == NewTabUrl(env);
  }

  /** The round trip through forward rewriting and display, for every canonical
      chrome-scheme URL, every combination of switches, with and without a policy override and
      a guest session: it gives back the URL exactly in the cases listed. */
  lemma DisplayRoundTripIff(env: Env, u: Url)
    requires GoodEnv(env)
    requires Canonical(env, u) && u.scheme == env.chromeScheme && env.fixup(u) == u
    ensures Displayed(env, u) == u <==>
            if Overridden(env, u) then Reverse(env, env.newTabOverride.value).url == u
            else !GuestRedirected(env, u) && ShownAsTyped(env, u)
  {
    OverriddenIff(env, u);
    if Overridden(env, u) {
    } else if GuestRedirected(env, u) {
      GuestSeesNewTab(env, u);
    } else {
      OrdinaryForward(env, u);
      OrdinaryIsGood(env);
      OrdinaryRoundTripIff(Ordinary(env), u);
    }
  }

  lemma OrdinaryRoundTripIff(env: Env, u: Url)
    requires GoodEnv(env) && env.newTabOverride.None? && !env.guest
    requires Canonical(env, u) && u.scheme == env.chromeScheme && env.fixup(u) == u
    ensures Displayed(env, u) == u <==> ShownAsTyped(env, u)
  {
    var n := env.names;
    var f := Forward(env, u);
    if u.host == n.settings && env.extensionsBuild && u.path == "/" + n.deprecatedExtensionsSubPage {
      assert f.host == n.uber;
      DeprecatedPageIsShownAsExtensions(env, u);
    } else if u.host == n.uber {
      UberRoundTrip(env, u);
    } else if u.host in {n.extensions, n.history, n.settings, n.help} {
      if f.host == n.uber {
        CanonPathOfJoined(u.host, u.path);
        EmbeddedIsShown(env, u, u.host);
      }
    }
  }

  lemma UberRoundTrip(env: Env, u: Url)
    requires GoodEnv(env) && env.newTabOverride.None? && !env.guest
    requires Canonical(env, u) && u.scheme == env.chromeScheme && env.fixup(u) == u && u.host == env.names.uber
    ensures Displayed(env, u) == u <==> ShownAsTyped(env, u)
  {
    assert AboutTarget(env, u) == Target(u.host, None);
    if HelpPage(env, u) {
      assert Displayed(env, u).host == env.names.settings;
    } else {
      assert Forward(env, u) == u;
      RemoveSucceedsIff(env, u);
      assert |u.path| == 1 ==> u.path == "/";
      if RemoveUber(env, u).claimed {
        var rest := AfterSegment(u.path);
        assert |rest| < |u.path| && |u.path| > 1;
        assert rest != "" ==> rest[0] == '/';
        assert Displayed(env, u).path == CanonPath(rest) != u.path;
      }
    }
  }

  /** With the material-design pages and the settings window off, the pages embedded in the
      uber page are displayed as typed, whatever their path, query and reference. */
  lemma EmbeddedPagesShownAsTyped(env: Env, u: Url)
    requires GoodEnv(env) && env.newTabOverride.None? && !env.guest
    requires !env.mdSettings && !env.mdHistory && !env.mdExtensions && !env.settingsWindow && !env.android
    requires Canonical(env, u) && u.scheme == env.chromeScheme
    requires u.host in {env.names.settings, env.names.help, env.names.history, env.names.extensions}
    ensures if && env.extensionsBuild && u.host == env.names.settings
               && u.path == "/" + env.names.deprecatedExtensionsSubPage
            then Displayed(env, u) == u.(host := env.names.extensions, path := "/")
            else Displayed(env, u) == u
  {
    assert env.fixup(u) == u;
    OrdinaryRoundTripIff(env, u);
    if env.extensionsBuild && u.host == env.names.settings && u.path == "/" + env.names.deprecatedExtensionsSubPage {
      DeprecatedPageIsShownAsExtensions(env, u);
    }
  }

  /** The legacy chrome://settings/extensions page comes back as the extensions page. */
  lemma DeprecatedPageIsShownAsExtensions(env: Env, u: Url)
    requires GoodEnv(env) && env.newTabOverride.None? && !env.guest
    requires Canonical(env, u) && u.scheme == env.chromeScheme && env.fixup(u) == u
    requires env.extensionsBuild && u.host == env.names.settings
    requires u.path == "/" + env.names.deprecatedExtensionsSubPage
    ensures Displayed(env, u) == u.(host := env.names.extensions, path := "/")
  {
    var n := env.names;
    assert n.extensions in ProductHosts(n);
    assert n.extensions[0] in n.extensions;
    var w := u.(host := n.uber, path := "/" + n.extensions);
    assert About(env, u) == Handled(w, false);
    assert Forward(env, u) == w;
    assert "/" + n.extensions == "/" + n.extensions + "";
    Segments(n.extensions, "");
  }

  // ---------------------------------------------------------------- the code, step by step

  /** The hosts whose pages can be embedded keep their name, which is not empty. */
  lemma EmbeddedHosts(env: Env)
    requires GoodEnv(env)
    ensures var n := env.names;
      forall h :: h in {n.extensions, n.history, n.settings, n.help} ==> |h| > 0 && env.canonHost(h) == h
    ensures var n := env.names;
      n.chromeUrls !in {n.cache, n.sync, n.extensions, n.settings, n.history, n.help}
  {
    var n := env.names;
    assert {n.extensions, n.history, n.settings, n.help} <= ProductHosts(n);
  }

  /** What the branch chain must leave in `host` and `path`: an empty path means that only the
      host is replaced. */
  predicate Chosen(env: Env, u: Url, host: string, path: string) {
    MoveTo(env, u, AboutTarget(env, u)) == MoveTo(env, u, Target(host, if path == "" then None else Some(path)))
  }

  /** The branch chain, which reassigns `host` and `path`; `early` is the result when it
      returns from the middle. */
  method ChooseHostAndPath(env: Env, url: Url) returns (host: string, path: string, early: Option<bool>)
    requires GoodEnv(env) && Canonical(env, url)
    ensures early == if MdSettingsPage(env, url) then Some(true)
                     else if url.host == env.names.help && env.mdSettings then Some(false) else None
    ensures early.None? ==> Chosen(env, url, host, path)
  {
    var n := env.names;
    EmbeddedHosts(env);
    assert url.host in {n.extensions, n.history, n.settings, n.help} ==>
      |url.path| > 0 && env.canonHost(url.host) == url.host && CanonPath(url.path) == url.path;
    early := None;
    host, path := url.host, "";
    if host == n.about {
      host := n.chromeUrls;
    }
    if host == n.cache {
      host := n.networkViewCache;
    } else if host == n.sync {
      host := n.syncInternals;
    } else if env.extensionsBuild && host == n.extensions {
      if env.mdExtensions {
        host := n.extensions;
        path := url.path;
      } else {
        host := n.uber;
        path := n.extensions + url.path;
      }
    } else if env.extensionsBuild && host == n.settings && url.path == "/" + n.deprecatedExtensionsSubPage {
      host := n.uber;
      path := n.extensions;
    } else if host == n.history {
      if env.android {
        if !env.nativeAndroidHistory {
          host := n.historyFrame;
        }
      } else if env.mdHistory {
        host := n.history;
        path := url.path;
      } else {
        host := n.uber;
        path := n.history + url.path;
      }
    } else if host == n.settings {
      if env.mdSettings {
        early := Some(true);
        return;
      } else if env.settingsWindow {
        host := n.settingsFrame;
      } else {
        host := n.uber;
        path := n.settings + url.path;
      }
    } else if host == n.help {
      if env.mdSettings {
        early := Some(false);
        return;
      } else if env.settingsWindow {
        host := n.settingsFrame;
        if url.path == "" || url.path == "/" {
          path := n.help;
        }
      } else {
        host := n.uber;
        path := n.help + url.path;
      }
    }
  }

  method WillHandleBrowserAboutURL(env: Env, given: Url) returns (url: Url, handled: bool)
    requires GoodEnv(env)
    ensures Handled(url, handled) == About(env, given)
  {
    url := env.fixup(given);
    if url.scheme != env.chromeScheme {
      return url, false;
    }
    var host, path, early := ChooseHostAndPath(env, url);
    if early.Some? {
      return url, early.value;
    }
    if path == "" {
      url := url.(host := env.canonHost(host));
    } else {
      url := ReplaceHostAndPath(env, url, host, path);
    }
    handled := false;
  }

  /** `HandleNewTabPageLocationOverride`; an empty policy value is `None`. */
  method HandleNewTabPageLocationOverride(env: Env, given: Url) returns (url: Url, handled: bool)
    ensures Handled(url, handled) == NewTabOverride(env, given)
    ensures handled <==> given.scheme == env.chromeScheme && given.host == env.names.newTab && env.newTabOverride.Some?
    ensures url == if handled then env.newTabOverride.value else given
  {
    url := given;
    if url.scheme != env.chromeScheme || url.host != env.names.newTab {
      return url, false;
    }
    if env.newTabOverride.None? {
      return url, false;
    }
    url := env.newTabOverride.value;
    handled := true;
  }

  method RemoveUberHost(env: Env, given: Url) returns (url: Url, removed: bool)
    requires GoodNames(env) && Canonical(env, given)
    ensures Handled(url, removed) == RemoveUber(env, given)
  {
    url := given;
    RemoveSucceedsIff(env, given);
    if url.host != env.names.uber {
      return url, false;
    }
    if url.path == "" || url.path == "/" {
      return url, false;
    }
    var oldPath := url.path;
    var separator := FindSlash(oldPath, 1);
    var newHost, newPath := "", "";
    if separator == |oldPath| {
      newHost := oldPath[1..];
    } else {
      newHost := oldPath[1..separator];
      newPath := oldPath[separator..];
    }
    assert newHost == FirstSegment(oldPath) && newPath == AfterSegment(oldPath);
    if newHost == "" {
      return url, false;
    }
    url := ReplaceHostAndPath(env, url, newHost, newPath);
    removed := true;
  }

  method HandleWebUI(env: Env, given: Url) returns (url: Url, handled: bool)
    ensures Handled(url, handled) == WebUi(env, given)
  {
    url := given;
    var n := env.names;
    if env.mdSettings {
      if url.host == n.help || (url.host == n.uber && (url.path == "" || url.path == "/")) {
        url := ReplaceHostAndPath(env, url, n.settings, n.help);
        return url, true;
      }
    }
    if url.host != "" {
      var chromeUrl := AddUber(env, url);
      if env.useWebUI(chromeUrl) {
        return url, true;
      }
    }
    if !env.useWebUI(url) {
      return url, false;
    }
    if env.guest {
      if url.scheme == env.chromeScheme
        && (DomainIs(url.host, n.bookmarks) || DomainIs(url.host, n.history)) {
        url := NewTabUrl(env);
      }
    }
    handled := true;
  }

  method HandleWebUIReverse(env: Env, given: Url) returns (url: Url, handled: bool)
    requires GoodNames(env) && Canonical(env, given)
    ensures Handled(url, handled) == Reverse(env, given)
  {
    url := given;
    if env.mdSettings && url.host == env.names.settings {
      return url, true;
    }
    if url.scheme != env.chromeScheme {
      return url, false;
    }
    url, handled := RemoveUberHost(env, url);
  }
}
