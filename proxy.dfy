/**
 * Which HTTP proxy an uplink uses.
 *
 * The proxy key is `https_proxy` for an `https:` uplink URL and `http_proxy`
 * otherwise; the uplink's own key, when present, wins over the application's.
 * `no_proxy` (the uplink's, else the application's) is a comma-separated
 * string or a list of entries; an entry matching the URL's hostname on a dot
 * boundary (wget-style: both are given a leading dot and the entry must be
 * a suffix of the hostname) disables the proxy. A proxy that is not a string
 * is not used. The port plays no part.
 */
module Proxy {
  import opened Wrappers
  import opened Configuration

  /** `suffix` is a suffix of `s`. */
  predicate IsSuffix(suffix: string, s: string)
  {
    |suffix| <= |s| && s[|s| - |suffix|..] == suffix
  }

  /** `s` without its leading dot, if it has one. */
  function Undot(s: string): string
  {
    if |s| > 0 && s[0] == '.' then s[1..] else s
  }

  /** `s` with a dot in front, unless it already starts with one. */
  function Dotted(s: string): (r: string)
    ensures r == "." + Undot(s)
  {
    if |s| > 0 && s[0] == '.' then s else "." + s
  }

  /** Splits `s` at every `sep`, as JavaScript's `String.prototype.split` with a one-character separator. */
  function Split(s: string, sep: char): (parts: seq<string>)
    ensures |parts| > 0
    ensures forall i :: 0 <= i < |parts| ==> sep !in parts[i]
  {
    if |s| == 0 then [""]
    else
      var rest := Split(s[1..], sep);
      if s[0] == sep then [""] + rest else [[s[0]] + rest[0]] + rest[1..]
  }

  /** Joins `parts` with `sep` between consecutive parts. */
  function Join(parts: seq<string>, sep: char): string
    requires |parts| > 0
  {
    if |parts| == 1 then parts[0] else parts[0] + [sep] + Join(parts[1..], sep)
  }

  /** Splitting loses nothing: joining the parts gives back the string. */
  lemma {:induction false} JoinSplit(s: string, sep: char)
    ensures Join(Split(s, sep), sep) == s
  {
    if |s| > 0 {
      var rest := Split(s[1..], sep);
      JoinSplit(s[1..], sep);
      if s[0] == sep {
        assert ([""] + rest)[1..] == rest;
      } else {
        var parts := [[s[0]] + rest[0]] + rest[1..];
        if |rest| > 1 {
          assert parts[1..] == rest[1..];
          assert Join(rest, sep) == rest[0] + [sep] + Join(rest[1..], sep);
        }
        assert s == [s[0]] + s[1..];
      }
    }
  }

  /** Splitting a join of separator-free parts gives back the parts. */
  lemma {:induction false} SplitJoin(parts: seq<string>, sep: char)
    requires |parts| > 0
    requires forall i :: 0 <= i < |parts| ==> sep !in parts[i]
    ensures Split(Join(parts, sep), sep) == parts
  {
    if |parts| == 1 {
      SplitPart(parts[0], [], sep);
      assert parts[0] + [] == parts[0] && parts[0] + "" == parts[0];
      assert parts == [parts[0]];
    } else {
      SplitJoin(parts[1..], sep);
      assert Join(parts, sep) == parts[0] + ([sep] + Join(parts[1..], sep));
      var tail := [sep] + Join(parts[1..], sep);
      SplitPart(parts[0], tail, sep);
      assert tail[1..] == Join(parts[1..], sep);
      assert Split(tail, sep) == [""] + parts[1..];
      assert parts[0] + "" == parts[0];
      assert [parts[0]] + parts[1..] == parts;
    }
  }

  /** A separator-free prefix ends up at the front of the first part. */
  lemma {:induction false} SplitPart(p: string, t: string, sep: char)
    requires sep !in p
    ensures Split(p + t, sep) == [p + Split(t, sep)[0]] + Split(t, sep)[1..]
  {
    if |p| > 0 {
      SplitPart(p[1..], t, sep);
      assert (p + t)[1..] == p[1..] + t;
      assert [p[0]] + (p[1..] + Split(t, sep)[0]) == p + Split(t, sep)[0];
    } else {
      assert p + t == t;
      assert p + Split(t, sep)[0] == Split(t, sep)[0];
      assert [Split(t, sep)[0]] + Split(t, sep)[1..] == Split(t, sep);
    }
  }

  /**
   * The `no_proxy` entries: a non-empty string split at commas, a list as it
   * is, anything else (including `''`) none. Splitting loses nothing: the
   * pieces joined with commas give back the string.
   */
  function NoProxyEntries(v: Option<ConfigValue>): (r: seq<string>)
    ensures v.Some? && v.value.Str? ==> (r == [] <==> v.value.s == "")
    ensures v.Some? && v.value.Str? && r != [] ==> Join(r, ',') == v.value.s
    ensures v.Some? && v.value.Str? ==> forall i :: 0 <= i < |r| ==> ',' !in r[i]
    ensures v.Some? && v.value.List? ==> r == v.value.items
    ensures !(v.Some? && (v.value.Str? || v.value.List?)) ==> r == []
  {
    match v
    case Some(Str(s)) => if |s| > 0 then JoinSplit(s, ','); Split(s, ',') else []
    case Some(List(items)) => items
    case _ => []
  }

  /**
   * wget-style match: the dotted entry is a suffix of the dotted hostname.
   * That is the dot boundary: an entry (leading dot ignored) matches a
   * hostname (leading dot ignored) exactly when they are equal or the
   * hostname ends with a dot followed by the entry.
   */
  predicate EntryMatches(hostname: string, entry: string): (r: bool)
    ensures r <==> Undot(hostname) == Undot(entry) || IsSuffix("." + Undot(entry), Undot(hostname))
  {
    DotSuffix(Undot(hostname), Undot(entry));
    IsSuffix(Dotted(entry), Dotted(hostname))
  }

  /** Some entry of `entries` matches `hostname`; the entries are tried in order. */
  predicate AnyEntryMatches(hostname: string, entries: seq<string>): (r: bool)
    ensures r <==> exists i :: 0 <= i < |entries| && EntryMatches(hostname, entries[i])
  {
    if |entries| == 0 then false
    else
      assert forall i :: 1 <= i < |entries| ==> entries[1..][i - 1] == entries[i];
      EntryMatches(hostname, entries[0]) || AnyEntryMatches(hostname, entries[1..])
  }

  /** The uplink's value for a key when it has the key, else the application's. */
  function Pick(uplinkValue: Option<ConfigValue>, globalValue: Option<ConfigValue>): Option<ConfigValue>
  {
    if uplinkValue.Some? then uplinkValue else globalValue
  }

  /**
   * The configured proxy for the uplink's URL scheme, before `no_proxy` is
   * considered: `https_proxy` for `https:`, `http_proxy` otherwise, the
   * uplink's key winning over the application's.
   */
  function ConfiguredProxy(uplink: UplinkConf, app: Config): (r: Option<ConfigValue>)
    ensures uplink.url.scheme == Https && uplink.httpsProxy.Some? ==> r == uplink.httpsProxy
    ensures uplink.url.scheme == Https && uplink.httpsProxy.None? ==> r == app.httpsProxy
    ensures uplink.url.scheme == Http && uplink.httpProxy.Some? ==> r == uplink.httpProxy
    ensures uplink.url.scheme == Http && uplink.httpProxy.None? ==> r == app.httpProxy
  {
    if uplink.url.scheme == Https then Pick(uplink.httpsProxy, app.httpsProxy)
    else Pick(uplink.httpProxy, app.httpProxy)
  }

  /** The `no_proxy` setting in force for the uplink: its own key, else the application's. */
  function NoProxySetting(uplink: UplinkConf, app: Config): (r: Option<ConfigValue>)
    ensures uplink.noProxy.Some? ==> r == uplink.noProxy
    ensures uplink.noProxy.None? ==> r == app.noProxy
  {
    Pick(uplink.noProxy, app.noProxy)
  }

  /**
   * The proxy the uplink uses, `None` for a direct connection: a proxy is
   * used exactly when the configured value for the scheme is a string (the
   * empty string included) and no `no_proxy` entry matches the hostname, and
   * then it is that string.
   */
  function SelectProxy(uplink: UplinkConf, app: Config): (r: Option<string>)
    ensures var proxy := ConfiguredProxy(uplink, app);
            var entries := NoProxyEntries(NoProxySetting(uplink, app));
            r.Some? <==>
              && proxy.Some? && proxy.value.Str?
              && !(exists i :: 0 <= i < |entries| && EntryMatches(uplink.url.hostname, entries[i]))
    ensures r.Some? ==> ConfiguredProxy(uplink, app) == Some(Str(r.value))
  {
    var proxy := ConfiguredProxy(uplink, app);
    var bypass := AnyEntryMatches(uplink.url.hostname, NoProxyEntries(NoProxySetting(uplink, app)));
    if proxy.Some? && proxy.value.Str? && !bypass then Some(proxy.value.s) else None
  }

  /** Prefixing both strings with a dot: `.e` ends `.h` iff `h == e` or `.e` ends `h`. */
  lemma DotSuffix(h: string, e: string)
    ensures IsSuffix("." + e, "." + h) <==> h == e || IsSuffix("." + e, h)
  {
    var dh, de := "." + h, "." + e;
    if |e| == |h| {
      assert dh[|dh| - |de|..] == dh;
      if dh == de {
        assert h == dh[1..] == de[1..] == e;
      }
    } else if |e| < |h| {
      assert dh[|dh| - |de|..] == h[|h| - |de|..];
    }
  }

  /** With no proxy key anywhere, the connection is direct. */
  lemma NoProxyConfigured(uplink: UplinkConf, app: Config)
    requires uplink.httpProxy.None? && uplink.httpsProxy.None?
    requires app.httpProxy.None? && app.httpsProxy.None?
    ensures SelectProxy(uplink, app) == None
  {
  }

  /** The uplink's own proxy key wins over the application's. */
  lemma UplinkProxyWins(uplink: UplinkConf, app: Config, app': Config)
    requires app'.noProxy == app.noProxy
    requires uplink.url.scheme == Http ==> uplink.httpProxy.Some?
    requires uplink.url.scheme == Https ==> uplink.httpsProxy.Some?
    ensures SelectProxy(uplink, app) == SelectProxy(uplink, app')
  {
  }

  /** Without the key on the uplink, the application's value is used. */
  lemma GlobalProxyFallback(uplink: UplinkConf, app: Config, p: string)
    requires uplink.url.scheme == Http && uplink.httpProxy.None? && app.httpProxy == Some(Str(p))
    requires NoProxyEntries(NoProxySetting(uplink, app)) == []
    ensures SelectProxy(uplink, app) == Some(p)
  {
  }

  /** For an `https:` URL only `https_proxy` is consulted: the `http_proxy` keys make no difference. */
  lemma HttpsIgnoresHttpProxy(uplink: UplinkConf, app: Config, uplinkHttp: Option<ConfigValue>, appHttp: Option<ConfigValue>)
    requires uplink.url.scheme == Https
    ensures SelectProxy(uplink, app) ==
            SelectProxy(uplink.(httpProxy := uplinkHttp), app.(httpProxy := appHttp))
  {
  }

  /** For an `http:` URL only `http_proxy` is consulted. */
  lemma HttpIgnoresHttpsProxy(uplink: UplinkConf, app: Config, uplinkHttps: Option<ConfigValue>, appHttps: Option<ConfigValue>)
    requires uplink.url.scheme == Http
    ensures SelectProxy(uplink, app) ==
            SelectProxy(uplink.(httpsProxy := uplinkHttps), app.(httpsProxy := appHttps))
  {
  }

  /** A `no_proxy` that is null, a boolean, a number, `''` or `[]` never disables the proxy. */
  lemma InertNoProxy(uplink: UplinkConf, app: Config)
    requires NoProxySetting(uplink, app).Some?
    requires NoProxySetting(uplink, app).value in {Null, Bool(false), Bool(true), Str(""), List([])}
          || NoProxySetting(uplink, app).value.Num?
    requires ConfiguredProxy(uplink, app).Some? && ConfiguredProxy(uplink, app).value.Str?
    ensures SelectProxy(uplink, app) == Some(ConfiguredProxy(uplink, app).value.s)
  {
  }

  /** A comma-separated string disables the proxy exactly when the list of its pieces would. */
  lemma StringNoProxyIsSplit(uplink: UplinkConf, app: Config, s: string)
    requires |s| > 0
    ensures SelectProxy(uplink.(noProxy := Some(Str(s))), app) ==
            SelectProxy(uplink.(noProxy := Some(List(Split(s, ',')))), app)
  {
  }

  /** A matching `no_proxy` entry disables any configured proxy. */
  lemma MatchDisablesProxy(uplink: UplinkConf, app: Config, i: nat)
    requires i < |NoProxyEntries(NoProxySetting(uplink, app))|
    requires EntryMatches(uplink.url.hostname, NoProxyEntries(NoProxySetting(uplink, app))[i])
    ensures SelectProxy(uplink, app) == None
  {
  }

  /** When no `no_proxy` entry matches, a configured string proxy is used. */
  lemma NoMatchKeepsProxy(uplink: UplinkConf, app: Config, p: string)
    requires ConfiguredProxy(uplink, app) == Some(Str(p))
    requires forall i :: 0 <= i < |NoProxyEntries(NoProxySetting(uplink, app))| ==>
               !EntryMatches(uplink.url.hostname, NoProxyEntries(NoProxySetting(uplink, app))[i])
    ensures SelectProxy(uplink, app) == Some(p)
  {
  }

  /** The port of the uplink URL does not affect the choice. */
  lemma PortIgnored(uplink: UplinkConf, app: Config, port: Option<nat>)
    ensures SelectProxy(uplink, app) == SelectProxy(uplink.(url := uplink.url.(port := port)), app)
  {
  }
}
