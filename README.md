# Storage filters, storage initialisation and uplink proxy choice (verdaccio)

This project models two small, deterministic parts of the verdaccio package
registry and proves properties of them in Dafny.

- **The storage object** (`packages/store/src/abstract-storage.ts`). Module
  `Store` has a class `AbstractStorage` with the fields `localStorage`,
  `searchManager` and `filters`. The constructor leaves it uninitialised.
  `Init` sets it up once and ignores every later call. `IsAllowPublishOffline`
  is the offline-publish switch. `ApplyFilters` is the metadata filter loop,
  proved against the pure definition `Filters.Apply`.
- **The filter pipeline** (module `Filters`). A filter plugin is a total
  function from manifests to `Result`, where `Failure` stands for a throw.
  Every filter is called once, in list order, always on the ORIGINAL
  manifest, so filters do not chain. The result is the output of the last
  filter that succeeded, or a copy of the input if none did. The errors of
  the failing filters are collected in filter order. The catch block logs
  the thrown value's `message`, so a filter that throws `null` or
  `undefined` makes the whole call reject with a `TypeError`.
- **The uplink proxy choice** (module `Proxy`). It takes an uplink config
  (its URL, its own `http_proxy`/`https_proxy`/`no_proxy`) and the
  application config, and returns the proxy to use, or `None`.
  - The key is `https_proxy` for `https:` URLs and `http_proxy` otherwise.
  - The uplink's own key wins over the application's.
  - `no_proxy` is a comma-separated string or a list.
  - An entry disables the proxy when it matches the hostname on a dot
    boundary: wget-style, both get a leading dot and the entry must be a
    suffix of the hostname.
  - The port is ignored.
  - Module `ProxyCases` states each case of
    `packages/proxy/test/noProxy.spec.ts` as a lemma about `SelectProxy`.

Configuration keys are `Option<ConfigValue>`. `None` means the key is absent
from the config object. `Some(Null)` means the key is present with the value
`null`. The value of `no_proxy` or `allow_offline` may be any JSON
scalar or a list. The `publish` section may be absent, `null` (a bare
`publish:` key) or an object; `_isAllowPublishOffline` throws a `TypeError`
when it is `null`.

The implementation of the proxy choice, `packages/proxy/src/up-storage.ts`, is
not part of this model. The rule is rebuilt from the test file. The tests do
not fix four cases, and the model decides them this way:
- an uplink key that is present, even as `null`, `false` or another
  non-string, shadows the application's key: presence, not the value,
  decides priority, for `http_proxy`, `https_proxy` and `no_proxy` alike;
- a proxy value that is not a string gives no proxy;
- an empty-string proxy is kept: the result is `Some("")`;
- a matching `no_proxy` entry gives no proxy, whatever the proxy value is.

## Model

| member | source | states |
|---|---|---|
| `Filters.OutcomesAt` | packages/store/src/abstract-storage.ts:116-121 | there is one outcome per filter, and outcome `i` is filter `i` applied to the original manifest |
| `Filters.OutcomesAppend` | packages/store/src/abstract-storage.ts:116-121 | running `fs + gs` gives the outcomes of `fs` followed by those of `gs` |
| `Filters.ErrorsAppend` | packages/store/src/abstract-storage.ts:120-125 | errors are collected in order: the errors of a concatenation are the concatenated errors |
| `Filters.ErrorsPlusSuccesses` | packages/store/src/abstract-storage.ts:120-125 | every outcome is counted once, as an error or as a success |
| `Filters.ErrorsOfAllFailed` | packages/store/src/abstract-storage.ts:122-125 | when every outcome fails, error `i` is outcome `i`'s error |
| `Filters.LastSuccessIsLatest` | packages/store/src/abstract-storage.ts:115-121 | the kept manifest is that of the last success: later failures do not overwrite it |
| `Filters.LastSuccessOfAllFailed` | packages/store/src/abstract-storage.ts:115-127 | with no success, the starting value is kept |
| `Filters.Apply` | packages/store/src/abstract-storage.ts:109-128 | the pipeline rejects, with a `TypeError` on reading `message`, exactly when some filter throws `null` or `undefined`; with no filters it returns the input and no errors |
| `Filters.NullishThrownExists` | packages/store/src/abstract-storage.ts:122-123 | the `null`/`undefined` throw is recorded exactly when some outcome is one |
| `Filters.ApplyNoFilters` | packages/store/src/abstract-storage.ts:110-112 | with no filters, the input manifest itself comes back with an empty error list |
| `Filters.ApplyIsLastSuccess` | packages/store/src/abstract-storage.ts:115-127 | with no `null`/`undefined` throw, the call succeeds and the filtered manifest is the output, on the original input, of the last successful filter |
| `Filters.ApplyAllFailed` | packages/store/src/abstract-storage.ts:114-127 | if every filter throws a value other than `null`/`undefined`, the call succeeds, the result equals the input, and error `i` is filter `i`'s error |
| `Filters.ApplyErrorCount` | packages/store/src/abstract-storage.ts:114-126 | with no `null`/`undefined` throw, the errors plus the successful filters add up to the number of filters |
| `Filters.ApplyErrorsInFilterOrder` | packages/store/src/abstract-storage.ts:116-126 | with no `null`/`undefined` throw, the error list of `fs + gs` is that of `fs` followed by that of `gs` |
| `Filters.FiltersDoNotChain` | packages/store/src/abstract-storage.ts:116-121 | with two successful filters the result is `g(m)`: the second filter gets the original manifest, not `f(m)` |
| `Store.AbstractStorage.constructor` | packages/store/src/abstract-storage.ts:43-51 | keeps the config; `filters` is empty, and `localStorage` and `searchManager` are absent |
| `Store.AbstractStorage.Init` | packages/store/src/abstract-storage.ts:59-73 | first call: sets `filters` (a missing list becomes `[]`) and creates the local store, from the storage's own config with the secret read from the argument, plus the search index over it; later calls change nothing |
| `Store.AbstractStorage.IsAllowPublishOffline` | packages/store/src/abstract-storage.ts:75-81 | throws a `TypeError` on reading `allow_offline` exactly when `publish` is `null`; otherwise true exactly when `publish.allow_offline` is the boolean `true`, and false for an absent section or key and for any non-boolean value |
| `Store.AbstractStorage.ApplyFilters` | packages/store/src/abstract-storage.ts:109-128 | the loop returns exactly `Filters.Apply(filters, manifest)`: the last success, or the input, and the errors in order, or the rejection caused by a `null`/`undefined` throw |
| `Store.InitIsOneShot` | packages/store/src/abstract-storage.ts:59-71 | after `Init(config, first)` then `Init(config2, second)`, the filters are `first` and the store and index are those of the first call |
| `Store.InitWithoutFilters` | packages/store/src/abstract-storage.ts:59-61 | `Init` without a filter list leaves `filters` empty and creates the store and index |
| `Proxy.Split` | packages/proxy/test/noProxy.spec.ts:125-147 | a comma-separated `no_proxy` gives at least one entry, and no entry contains the separator |
| `Proxy.JoinSplit` | packages/proxy/test/noProxy.spec.ts:125-147 | splitting loses nothing: joining the entries with commas gives back the string |
| `Proxy.SplitJoin` | packages/proxy/test/noProxy.spec.ts:125-147 | splitting a comma-join of comma-free entries gives back exactly those entries |
| `Proxy.NoProxyEntries` | packages/proxy/test/noProxy.spec.ts:36-163 | a string `no_proxy` gives no entries exactly when it is `''`; the entries of a string are comma-free and join back to it; a list gives its items; any other value gives none |
| `Proxy.EntryMatches` | packages/proxy/test/noProxy.spec.ts:82-123 | an entry matches exactly when it equals the hostname or the hostname ends with `.` plus the entry; leading dots are ignored on both |
| `Proxy.AnyEntryMatches` | packages/proxy/test/noProxy.spec.ts:125-163 | the search over the entries finds a match exactly when some entry matches |
| `Proxy.ConfiguredProxy` | packages/proxy/test/noProxy.spec.ts:19-33 | `https_proxy` is used for `https:` and `http_proxy` for `http:`; the uplink's key wins, and the application's is used only when the uplink has none |
| `Proxy.NoProxySetting` | packages/proxy/test/noProxy.spec.ts:52-70 | the uplink's `no_proxy` wins; without it, the application's `no_proxy` is in force |
| `Proxy.SelectProxy` | packages/proxy/test/noProxy.spec.ts:11-186 | a proxy is used exactly when the key for the scheme holds a string and no `no_proxy` entry matches; the proxy is then that string |
| `Proxy.NoProxyConfigured` | packages/proxy/test/noProxy.spec.ts:13-17 | with no proxy key anywhere, there is no proxy |
| `Proxy.UplinkProxyWins` | packages/proxy/test/noProxy.spec.ts:19-27 | when the uplink has the key, the application's value makes no difference |
| `Proxy.GlobalProxyFallback` | packages/proxy/test/noProxy.spec.ts:29-33 | for an `http:` URL without the uplink's `http_proxy` key and with no `no_proxy` entries in force, the application's string proxy is used |
| `Proxy.HttpsIgnoresHttpProxy` | packages/proxy/test/noProxy.spec.ts:176-186 | for an `https:` URL, changing either `http_proxy` key does not change the result |
| `Proxy.HttpIgnoresHttpsProxy` | packages/proxy/test/noProxy.spec.ts:19-33 | for an `http:` URL, changing either `https_proxy` key does not change the result |
| `Proxy.InertNoProxy` | packages/proxy/test/noProxy.spec.ts:36-79 | a `no_proxy` that is null, a boolean, a number, `''` or `[]` never disables the proxy |
| `Proxy.StringNoProxyIsSplit` | packages/proxy/test/noProxy.spec.ts:125-163 | a non-empty string `no_proxy` acts exactly like the list of its comma-separated pieces |
| `Proxy.MatchDisablesProxy` | packages/proxy/test/noProxy.spec.ts:92-115 | any matching entry, at any position, disables the proxy |
| `Proxy.NoMatchKeepsProxy` | packages/proxy/test/noProxy.spec.ts:100-107 | with no matching entry, a configured string proxy is used |
| `Proxy.PortIgnored` | packages/proxy/test/noProxy.spec.ts:166-174 | the URL port does not affect the choice |
| `ProxyCases.NothingConfigured` | packages/proxy/test/noProxy.spec.ts:13-17 | no proxy keys give no proxy |
| `ProxyCases.UplinkTakesPriority` | packages/proxy/test/noProxy.spec.ts:19-27 | the uplink's `registry.local.org` wins over the global `registry.domain.org` |
| `ProxyCases.GlobalIsUsed` | packages/proxy/test/noProxy.spec.ts:29-33 | the global `http_proxy` is used |
| `ProxyCases.NoProxyNull` | packages/proxy/test/noProxy.spec.ts:37-40 | a `null` `no_proxy` keeps the proxy |
| `ProxyCases.NoProxyEmptyList` | packages/proxy/test/noProxy.spec.ts:42-45 | an empty `no_proxy` list keeps the proxy |
| `ProxyCases.NoProxyEmptyString` | packages/proxy/test/noProxy.spec.ts:47-50 | an empty `no_proxy` string keeps the proxy |
| `ProxyCases.NoProxySimpleInclude` | packages/proxy/test/noProxy.spec.ts:52-60 | the global `no_proxy: localhost` disables the proxy for `localhost` |
| `ProxyCases.NoProxySimpleNot` | packages/proxy/test/noProxy.spec.ts:62-70 | `blah` does not match `localhost` |
| `ProxyCases.NoProxyBoolean` | packages/proxy/test/noProxy.spec.ts:72-79 | `no_proxy: false` keeps the proxy |
| `ProxyCases.BareSuffixDoesNotMatch` | packages/proxy/test/noProxy.spec.ts:83-91 | `blah` does not match `blahblah` |
| `ProxyCases.HostnameMatchDisables` | packages/proxy/test/noProxy.spec.ts:92-99 | an entry equal to the hostname disables the global proxy |
| `ProxyCases.DottedEntryBareSuffixDoesNotMatch` | packages/proxy/test/noProxy.spec.ts:100-107 | `.blah` does not match `blahblah` |
| `ProxyCases.DomainMatchDisables` | packages/proxy/test/noProxy.spec.ts:108-111 | `.blah` matches `blah.blah` |
| `ProxyCases.DottedEntryMatchesHostname` | packages/proxy/test/noProxy.spec.ts:112-115 | `.blah` matches the hostname `blah` |
| `ProxyCases.NearMissDoesNotMatch` | packages/proxy/test/noProxy.spec.ts:116-123 | `blah` does not match `blahh` |
| `ProxyCases.CommaListNoMatch` | packages/proxy/test/noProxy.spec.ts:126-134 | `foo,bar,blah` does not match `blahblah` |
| `ProxyCases.CommaListMatch` | packages/proxy/test/noProxy.spec.ts:135-138 | `foo,bar,blah` matches `blah.blah` |
| `ProxyCases.CommaListMatchFoo` | packages/proxy/test/noProxy.spec.ts:140-143 | `foo,bar,blah` matches `blah.foo` |
| `ProxyCases.CommaListPrefixDoesNotMatch` | packages/proxy/test/noProxy.spec.ts:144-147 | `foo,bar,blah` does not match `foo.baz`, because a prefix is not a suffix |
| `ProxyCases.ArrayNoMatch` | packages/proxy/test/noProxy.spec.ts:148-155 | the list `['foo','bar','blah']` does not match `blahblah` |
| `ProxyCases.ArrayMatch` | packages/proxy/test/noProxy.spec.ts:156-163 | the list `['foo','bar','blah']` matches `blah.blah` |
| `ProxyCases.PortEightyIgnored` | packages/proxy/test/noProxy.spec.ts:167-170 | `localhost:80` matches `localhost` |
| `ProxyCases.PortEightyEightyIgnored` | packages/proxy/test/noProxy.spec.ts:171-172 | `localhost:8080` matches `localhost` |
| `ProxyCases.SecureIgnoresHttpProxy` | packages/proxy/test/noProxy.spec.ts:177-180 | an `https:` URL with only `http_proxy` gets no proxy |
| `ProxyCases.SecureUsesHttpsProxy` | packages/proxy/test/noProxy.spec.ts:181-182 | an `https:` URL uses `https_proxy` |
| `ProxyCases.SecureHttpsProxyWins` | packages/proxy/test/noProxy.spec.ts:183-184 | with both keys set, an `https:` URL uses `https_proxy` |

## Left out

- Uplink sync, merge and error aggregation (`syncUplinksMetadataNext`, `getPackageByOptions`): their implementation files are not part of this model. The only evidence is network-mocked tests, so any rule written for them would be a guess.
- `setupUpLinks` and the `uplinks` field: `packages/store/src/uplink-util.ts` is not part of this model. The search index token therefore records only the local store.
- Token operations (`readTokens`, `saveToken`, `deleteToken`) and `mergeTags`: they only forward to the local store.
- `LocalStorage.init`, `getSecret` and the `SearchManager` construction are I/O. They are tokens here that record what they were built from, and they never fail.
- Store.AbstractStorage.Init: does not model an `init` that throws half-way, for example when `getSecret` fails after `localStorage` was set. The model's `Init` always completes.
- `async`/`await`, the logger and the debug output are left out. A filter's rejection is modelled the same way as a throw.
- Store.AbstractStorage.ApplyFilters: models filters as pure functions. A plugin that mutates the shared manifest in place, as the comment in `applyFilters` allows (`packages/store/src/abstract-storage.ts:117-119`), could let later filters see earlier changes. That aliasing is not captured.
- Proxy.SelectProxy: `packages/proxy/src/up-storage.ts` is not part of this model. The rule follows the test file. Where the tests say nothing, a present uplink key shadows the application's key whatever its value (so uplink `http_proxy: null` hides the application's proxy, and uplink `no_proxy: null` hides the application's `no_proxy`), a non-string proxy gives no proxy, an empty-string proxy is kept as `Some("")`, and a matching entry gives no proxy whatever the proxy value is.
- Store.AbstractStorage.ApplyFilters: a `null`/`undefined` throw is modelled as an immediate rejection. The logger output that the earlier, ordinary failures produced before it is not modelled.
- Parsing of the uplink URL: the URL is given already split into scheme, hostname and port.
- The local file-system driver (`local-fs.test.ts`), the HTTP test client (`server.ts`), the test config and the temp-dir helper: these are I/O or tooling.
