/**
 * The storage object shared by the registry's storage layer: its one-shot
 * initialisation, the offline-publish switch and the metadata filter
 * pipeline. The local package store and the search index are created by I/O
 * that is not modelled; they appear as tokens that record what they were
 * built from.
 */
module Store {
  import opened Wrappers
  import opened Configuration
  import opened Filters

  /** The local package store, opened on the storage's own config; its secret is read with `secretConfig`. */
  datatype LocalStore = LocalStore(storageConfig: Config, secretConfig: Config)

  /** The search index, built over the local store. */
  datatype SearchIndex = SearchIndex(store: LocalStore)

  /** JavaScript's `_.isBoolean` on an optional config value. */
  predicate IsBoolean(v: Option<ConfigValue>)
  {
    v.Some? && v.value.Bool?
  }

  class AbstractStorage {
    const config: Config
    var localStorage: Option<LocalStore>
    var searchManager: Option<SearchIndex>
    var filters: seq<Filter>

    /** The local store and the search index exist together, and filters are set only by initialisation. */
    ghost predicate Valid()
      reads this
    {
      && (localStorage.None? <==> searchManager.None?)
      && (localStorage.None? ==> |filters| == 0)
    }

    /** A fresh storage object: no filters, no local store, no search index. */
    constructor (config: Config)
      ensures Valid()
      ensures this.config == config
      ensures filters == [] && localStorage == None && searchManager == None
    {
      this.config := config;
      filters := [];
      localStorage := None;
      searchManager := None;
    }

    /**
     * Initialises the storage once. On the first call the filters are set
     * (a missing list becomes the empty list) and the local store and the
     * search index are created; every later call changes nothing.
     */
    method Init(config: Config, filters: Option<seq<Filter>>)
      requires Valid()
      modifies this
      ensures Valid()
      ensures old(localStorage).None? ==>
        && this.filters == (if filters.Some? then filters.value else [])
        && localStorage == Some(LocalStore(this.config, config))
        && searchManager == Some(SearchIndex(LocalStore(this.config, config)))
      ensures old(localStorage).Some? ==>
        && this.filters == old(this.filters)
        && localStorage == old(localStorage)
        && searchManager == old(searchManager)
    {
      if localStorage.None? {
        this.filters := if filters.Some? then filters.value else [];
        var store := LocalStore(this.config, config);
        localStorage := Some(store);
        searchManager := Some(SearchIndex(store));
      }
    }

    /**
     * Whether publishing is allowed while the uplinks are unreachable: only
     * when `publish.allow_offline` is the boolean `true`. A `publish` key set
     * to `null` passes the `undefined` test and then throws on reading
     * `allow_offline`.
     */
    function IsAllowPublishOffline(): (r: Result<bool, TypeError>)
      ensures r.Failure? <==> config.publish == Some(NullPublish)
      ensures r.Failure? ==> r.error == ReadPropertyOfNullish("allow_offline")
      ensures r.Success? ==>
        (r.value <==> config.publish.Some? && config.publish.value == Publish(Some(Bool(true))))
    {
      if config.publish.None? then Success(false)
      else if config.publish.value.NullPublish? then Failure(ReadPropertyOfNullish("allow_offline"))
      else Success(IsBoolean(config.publish.value.allowOffline) && config.publish.value.allowOffline.value.b)
    }

    /**
     * Runs every configured filter, in order, on the original manifest,
     * without stopping at a failing one; returns the output of the last
     * successful filter (or a copy of the input) and the errors thrown. A
     * filter that throws `null` or `undefined` makes the error logging throw,
     * which rejects at once: the remaining filters are not run.
     */
    method ApplyFilters(manifest: Manifest) returns (r: Result<(Manifest, seq<FilterError>), TypeError>)
      ensures r == Apply(filters, manifest)
    {
      if |filters| == 0 {
        return Success((manifest, []));
      }
      var errors: seq<FilterError> := [];
      var filtered := manifest;
      ghost var outcomes: seq<FilterResult> := [];
      for i := 0 to |filters|
        invariant outcomes == Outcomes(filters[..i], manifest)
        invariant !NullishThrown(outcomes)
        invariant errors == Errors(outcomes)
        invariant filtered == LastSuccess(outcomes, manifest)
      {
        var outcome := filters[i](manifest);
        if outcome == Failure(Nullish) {
          return Failure(ReadPropertyOfNullish("message"));
        }
        assert filters[..i + 1][..i] == filters[..i];
        assert (outcomes + [outcome])[..|outcomes|] == outcomes;
        outcomes := outcomes + [outcome];
        match outcome
        case Success(m) =>
          filtered := m;
        case Failure(e) =>
          errors := errors + [e];
      }
      assert filters[..|filters|] == filters;
      r := Success((filtered, errors));
    }
  }

  /** A second initialisation, even with another config and other filters, leaves the first one's state in place. */
  method InitIsOneShot(config: Config, config2: Config, first: seq<Filter>, second: seq<Filter>) returns (s: AbstractStorage)
    ensures s.Valid()
    ensures s.filters == first
    ensures s.localStorage == Some(LocalStore(config, config))
    ensures s.searchManager == Some(SearchIndex(LocalStore(config, config)))
  {
    s := new AbstractStorage(config);
    s.Init(config, Some(first));
    s.Init(config2, Some(second));
  }

  /** An initialisation without a filter list leaves the filter list empty. */
  method InitWithoutFilters(config: Config) returns (s: AbstractStorage)
    ensures s.Valid()
    ensures s.filters == [] && s.localStorage.Some? && s.searchManager.Some?
  {
    s := new AbstractStorage(config);
    s.Init(config, None);
  }
}
