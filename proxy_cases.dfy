/**
 * The cases of the proxy test suite, each stated as a fact about
 * `SelectProxy`: the URL, the uplink's keys and the application's keys of
 * one test, and the proxy the test expects (`None` where it expects none).
 */
module ProxyCases {
  import opened Wrappers
  import opened Configuration
  import opened Proxy

  /** An uplink config with only the given URL and keys. */
  function Uplink(scheme: Scheme, host: string, port: Option<nat>, http: Option<ConfigValue>,
                  https: Option<ConfigValue>, noProxy: Option<ConfigValue>): UplinkConf
  {
    UplinkConf(Url(scheme, host, port), http, https, noProxy)
  }

  /** An application config with only the given proxy keys. */
  function App(http: Option<ConfigValue>, noProxy: Option<ConfigValue>): Config
  {
    Config(None, http, None, noProxy)
  }

  /** "should do not define proxy": no proxy key anywhere gives no proxy. */
  lemma NothingConfigured()
    ensures SelectProxy(Uplink(Http, "registry.domain.org", None, None, None, None),
                        App(None, None))
            == None
  {
  }

  /** "uplink configuration should take priority". */
  lemma UplinkTakesPriority()
    ensures SelectProxy(Uplink(Http, "registry.domain.org", None, Some(Str("registry.local.org")), None, None),
                        App(Some(Str("registry.domain.org")), None))
            == Some("registry.local.org")
  {
  }

  /** "global configuration should be used". */
  lemma GlobalIsUsed()
    ensures SelectProxy(Uplink(Http, "registry.domain.org", None, None, None, None),
                        App(Some(Str("registry.domain.org")), None))
            == Some("registry.domain.org")
  {
  }

  /** "no_proxy is null". */
  lemma NoProxyNull()
    ensures SelectProxy(Uplink(Http, "x", None, Some(Str("registry.local.org")), None, Some(Null)),
                        App(None, None))
            == Some("registry.local.org")
  {
  }

  /** "no_proxy is empty array". */
  lemma NoProxyEmptyList()
    ensures SelectProxy(Uplink(Http, "x", None, Some(Str("registry.local.org")), None, Some(List([]))),
                        App(None, None))
            == Some("registry.local.org")
  {
  }

  /** "no_proxy is empty object" (the value is the empty string). */
  lemma NoProxyEmptyString()
    ensures SelectProxy(Uplink(Http, "x", None, Some(Str("registry.local.org")), None, Some(Str(""))),
                        App(None, None))
            == Some("registry.local.org")
  {
  }

  /** "no_proxy - simple/include". */
  lemma NoProxySimpleInclude()
    ensures SelectProxy(Uplink(Http, "localhost", None, Some(Str("registry.local.org")), None, None),
                        App(None, Some(Str("localhost"))))
            == None
  {
    var u := Uplink(Http, "localhost", None, Some(Str("registry.local.org")), None, None);
    var a := App(None, Some(Str("localhost")));
    Single(u, a, "registry.local.org", "localhost");
    assert EntryMatches("localhost", "localhost");
  }

  /** "no_proxy - simple/not". */
  lemma NoProxySimpleNot()
    ensures SelectProxy(Uplink(Http, "localhost", None, Some(Str("registry.local.org")), None, None),
                        App(None, Some(Str("blah"))))
            == Some("registry.local.org")
  {
    var u := Uplink(Http, "localhost", None, Some(Str("registry.local.org")), None, None);
    var a := App(None, Some(Str("blah")));
    Single(u, a, "registry.local.org", "blah");
    NoMatch("localhost", "blah", 5);
  }

  /** "no_proxy is boolean". */
  lemma NoProxyBoolean()
    ensures SelectProxy(Uplink(Http, "registry.some.domain", None, Some(Str("registry.local.org")), None, Some(Bool(false))),
                        App(None, None))
            == Some("registry.local.org")
  {
  }

  /** "no_proxy - various, single string". */
  lemma BareSuffixDoesNotMatch()
    ensures SelectProxy(Uplink(Http, "blahblah", None, Some(Str("registry.local.org")), None, None),
                        App(None, Some(Str("blah"))))
            == Some("registry.local.org")
  {
    var u := Uplink(Http, "blahblah", None, Some(Str("registry.local.org")), None, None);
    var a := App(None, Some(Str("blah")));
    Single(u, a, "registry.local.org", "blah");
    NoMatch("blahblah", "blah", 4);
  }

  /** "should disable proxy if match hostname". */
  lemma HostnameMatchDisables()
    ensures SelectProxy(Uplink(Http, "registry.local.org", None, None, None, None),
                        App(Some(Str("123")), Some(Str("registry.local.org"))))
            == None
  {
    var u := Uplink(Http, "registry.local.org", None, None, None, None);
    var a := App(Some(Str("123")), Some(Str("registry.local.org")));
    Single(u, a, "123", "registry.local.org");
    assert EntryMatches("registry.local.org", "registry.local.org");
  }

  /** "should not override http_proxy if domain does not match". */
  lemma DottedEntryBareSuffixDoesNotMatch()
    ensures SelectProxy(Uplink(Http, "blahblah", None, None, None, None),
                        App(Some(Str("http://registry.local.org")), Some(Str(".blah"))))
            == Some("http://registry.local.org")
  {
    var u := Uplink(Http, "blahblah", None, None, None, None);
    var a := App(Some(Str("http://registry.local.org")), Some(Str(".blah")));
    Single(u, a, "http://registry.local.org", ".blah");
    NoMatch("blahblah", ".blah", 4);
  }

  /** "should override http_proxy if match domain no_proxy". */
  lemma DomainMatchDisables()
    ensures SelectProxy(Uplink(Http, "blah.blah", None, Some(Str("123")), None, Some(Str(".blah"))),
                        App(None, None))
            == None
  {
    var u := Uplink(Http, "blah.blah", None, Some(Str("123")), None, Some(Str(".blah")));
    var a := App(None, None);
    Single(u, a, "123", ".blah");
    Match("blah.blah", ".blah", 5);
  }

  /** "should override http_proxy due no_proxy match with hostname". */
  lemma DottedEntryMatchesHostname()
    ensures SelectProxy(Uplink(Http, "blah", None, Some(Str("123")), None, Some(Str(".blah"))),
                        App(None, None))
            == None
  {
    var u := Uplink(Http, "blah", None, Some(Str("123")), None, Some(Str(".blah")));
    var a := App(None, None);
    Single(u, a, "123", ".blah");
    Match("blah", ".blah", 0);
  }

  /** "should not override http_proxy if no_proxy does not match". */
  lemma NearMissDoesNotMatch()
    ensures SelectProxy(Uplink(Http, "blahh", None, Some(Str("http://registry.local.org")), None, Some(Str("blah"))),
                        App(None, None))
            == Some("http://registry.local.org")
  {
    var u := Uplink(Http, "blahh", None, Some(Str("http://registry.local.org")), None, Some(Str("blah")));
    var a := App(None, None);
    Single(u, a, "http://registry.local.org", "blah");
    NoMatch("blahh", "blah", 1);
  }

  /** "should not override http_proxy if not match domain" (comma-separated string). */
  lemma CommaListNoMatch()
    ensures SelectProxy(Uplink(Http, "blahblah", None, Some(Str("registry.local.org")), None, None),
                        App(None, Some(Str("foo,bar,blah"))))
            == Some("registry.local.org")
  {
    var u := Uplink(Http, "blahblah", None, Some(Str("registry.local.org")), None, None);
    var a := App(None, Some(Str("foo,bar,blah")));
    CommaList();
    Decide(u, a, "registry.local.org", ["foo", "bar", "blah"]);
    NoMatchBlahBlah();
  }

  /** "should disable proxy if match domain" (comma-separated string). */
  lemma CommaListMatch()
    ensures SelectProxy(Uplink(Http, "blah.blah", None, Some(Str("123")), None, None),
                        App(None, Some(Str("foo,bar,blah"))))
            == None
  {
    var u := Uplink(Http, "blah.blah", None, Some(Str("123")), None, None);
    var a := App(None, Some(Str("foo,bar,blah")));
    CommaList();
    Decide(u, a, "123", ["foo", "bar", "blah"]);
    MatchBlahBlah();
  }

  /** "disable proxy if match domain .foo". */
  lemma CommaListMatchFoo()
    ensures SelectProxy(Uplink(Http, "blah.foo", None, Some(Str("123")), None, None),
                        App(None, Some(Str("foo,bar,blah"))))
            == None
  {
    var u := Uplink(Http, "blah.foo", None, Some(Str("123")), None, None);
    var a := App(None, Some(Str("foo,bar,blah")));
    CommaList();
    Decide(u, a, "123", ["foo", "bar", "blah"]);
    MatchBlahFoo();
  }

  /** "should not disable http_proxy if not match domain". */
  lemma CommaListPrefixDoesNotMatch()
    ensures SelectProxy(Uplink(Http, "foo.baz", None, Some(Str("123")), None, None),
                        App(None, Some(Str("foo,bar,blah"))))
            == Some("123")
  {
    var u := Uplink(Http, "foo.baz", None, Some(Str("123")), None, None);
    var a := App(None, Some(Str("foo,bar,blah")));
    CommaList();
    Decide(u, a, "123", ["foo", "bar", "blah"]);
    NoMatchFooBaz();
  }

  /** "no_proxy should not find match no_proxy as array invalid domains". */
  lemma ArrayNoMatch()
    ensures SelectProxy(Uplink(Http, "blahblah", None, Some(Str("registry.local.org")), None, None),
                        App(None, Some(List(["foo", "bar", "blah"]))))
            == Some("registry.local.org")
  {
    var u := Uplink(Http, "blahblah", None, Some(Str("registry.local.org")), None, None);
    var a := App(None, Some(List(["foo", "bar", "blah"])));
    NoMatchBlahBlah();
    Decide(u, a, "registry.local.org", ["foo", "bar", "blah"]);
  }

  /** "no_proxy should find match no_proxy as array valid domains". */
  lemma ArrayMatch()
    ensures SelectProxy(Uplink(Http, "blah.blah", None, Some(Str("registry.local.org")), None, None),
                        App(None, Some(List(["foo", "bar", "blah"]))))
            == None
  {
    var u := Uplink(Http, "blah.blah", None, Some(Str("registry.local.org")), None, None);
    var a := App(None, Some(List(["foo", "bar", "blah"])));
    Match("blah.blah", "blah", 5);
    MatchDisablesProxy(u, a, 2);
  }

  /** "no_proxy - hostport", first assertion (port 80). */
  lemma PortEightyIgnored()
    ensures SelectProxy(Uplink(Http, "localhost", Some(80), Some(Str("123")), None, None),
                        App(None, Some(Str("localhost"))))
            == None
  {
    var u := Uplink(Http, "localhost", Some(80), Some(Str("123")), None, None);
    var a := App(None, Some(Str("localhost")));
    Single(u, a, "123", "localhost");
    assert EntryMatches("localhost", "localhost");
  }

  /** "no_proxy - hostport", second assertion (port 8080). */
  lemma PortEightyEightyIgnored()
    ensures SelectProxy(Uplink(Http, "localhost", Some(8080), Some(Str("123")), None, None),
                        App(None, Some(Str("localhost"))))
            == None
  {
    var u := Uplink(Http, "localhost", Some(8080), Some(Str("123")), None, None);
    var a := App(None, Some(Str("localhost")));
    Single(u, a, "123", "localhost");
    assert EntryMatches("localhost", "localhost");
  }

  /** "no_proxy - secure", first assertion: only `http_proxy` is set. */
  lemma SecureIgnoresHttpProxy()
    ensures SelectProxy(Uplink(Https, "something", None, Some(Str("123")), None, None),
                        App(None, None))
            == None
  {
  }

  /** "no_proxy - secure", second assertion: `https_proxy` is set. */
  lemma SecureUsesHttpsProxy()
    ensures SelectProxy(Uplink(Https, "something", None, None, Some(Str("123")), None),
                        App(None, None))
            == Some("123")
  {
  }

  /** "no_proxy - secure", third assertion: both keys are set. */
  lemma SecureHttpsProxyWins()
    ensures SelectProxy(Uplink(Https, "something", None, Some(Str("456")), Some(Str("123")), None),
                        App(None, None))
            == Some("123")
  {
  }

  /** A string without a comma is a single entry. */
  lemma SplitSingle(s: string)
    requires ',' !in s
    ensures Split(s, ',') == [s]
  {
    SplitJoin([s], ',');
  }

  /** With a single-entry string `no_proxy`, the choice is decided by whether that entry matches. */
  lemma Single(uplink: UplinkConf, app: Config, p: string, e: string)
    requires ConfiguredProxy(uplink, app) == Some(Str(p))
    requires NoProxySetting(uplink, app) == Some(Str(e))
    requires e != "" && ',' !in e
    ensures SelectProxy(uplink, app) == if EntryMatches(uplink.url.hostname, e) then None else Some(p)
  {
    SplitSingle(e);
    Decide(uplink, app, p, [e]);
  }

  /** "foo,bar,blah" splits into its three entries. */
  lemma CommaList()
    ensures Split("foo,bar,blah", ',') == ["foo", "bar", "blah"]
  {
    SplitJoin(["foo", "bar", "blah"], ',');
    assert Join(["foo", "bar", "blah"], ',') == "foo,bar,blah";
  }

  /** A hostname and entry do not match when the dotted forms differ at position `k` of the suffix window. */
  lemma NoMatch(hostname: string, entry: string, k: nat)
    requires var dh, de := Dotted(hostname), Dotted(entry);
             |de| <= |dh| ==> |dh| - |de| <= k < |dh| && dh[k] != de[k - (|dh| - |de|)]
    ensures !EntryMatches(hostname, entry)
  {
  }

  /** A hostname and entry match when the dotted entry sits at offset `k` of the dotted hostname. */
  lemma Match(hostname: string, entry: string, k: nat)
    requires k <= |Dotted(hostname)| && Dotted(hostname)[k..] == Dotted(entry)
    ensures EntryMatches(hostname, entry)
  {
  }

  /** Once the entry list is known, the choice is decided by whether some entry matches. */
  lemma Decide(uplink: UplinkConf, app: Config, p: string, entries: seq<string>)
    requires ConfiguredProxy(uplink, app) == Some(Str(p))
    requires NoProxyEntries(NoProxySetting(uplink, app)) == entries
    ensures SelectProxy(uplink, app) == if AnyEntryMatches(uplink.url.hostname, entries) then None else Some(p)
  {
  }

  /** No entry of `foo,bar,blah` matches `blahblah`. */
  lemma NoMatchBlahBlah()
    ensures !AnyEntryMatches("blahblah", ["foo", "bar", "blah"])
  {
    NoMatch("blahblah", "foo", 5);
    NoMatch("blahblah", "bar", 5);
    NoMatch("blahblah", "blah", 4);
    assert ["foo", "bar", "blah"][1..] == ["bar", "blah"];
    assert ["bar", "blah"][1..] == ["blah"];
  }

  /** No entry of `foo,bar,blah` matches `foo.baz`. */
  lemma NoMatchFooBaz()
    ensures !AnyEntryMatches("foo.baz", ["foo", "bar", "blah"])
  {
    NoMatch("foo.baz", "foo", 5);
    NoMatch("foo.baz", "bar", 7);
    NoMatch("foo.baz", "blah", 3);
    assert ["foo", "bar", "blah"][1..] == ["bar", "blah"];
    assert ["bar", "blah"][1..] == ["blah"];
  }

  /** Some entry of `foo,bar,blah` matches `blah.blah`. */
  lemma MatchBlahBlah()
    ensures AnyEntryMatches("blah.blah", ["foo", "bar", "blah"])
  {
    Match("blah.blah", "blah", 5);
    assert ["foo", "bar", "blah"][1..] == ["bar", "blah"];
    assert ["bar", "blah"][1..] == ["blah"];
  }

  /** Some entry of `foo,bar,blah` matches `blah.foo`. */
  lemma MatchBlahFoo()
    ensures AnyEntryMatches("blah.foo", ["foo", "bar", "blah"])
  {
    Match("blah.foo", "foo", 5);
  }
}
