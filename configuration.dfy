/**
 * The parts of the registry configuration that the model reads: the
 * application config (`Config`) and one uplink's config (`UplinkConf`).
 * A key that is absent from the YAML/JSON object is `None`; a key that is
 * present holds a `ConfigValue`, which may be any JSON scalar or a list.
 */
module Configuration {
  import opened Wrappers

  /** A configuration value as it comes out of the parsed config file. */
  datatype ConfigValue =
    | Null
    | Bool(b: bool)
    | Num(n: int)
    | Str(s: string)
    | List(items: seq<string>)

  /** The protocol of an uplink URL: `https:` or anything else. */
  datatype Scheme = Http | Https

  /** An uplink URL, already parsed into its parts. */
  datatype Url = Url(scheme: Scheme, hostname: string, port: Option<nat>)

  /** The `publish` section of the application config; a bare `publish:` key parses to `null`. */
  datatype PublishConfig = NullPublish | Publish(allowOffline: Option<ConfigValue>)

  /** The application config: the fields this model reads. */
  datatype Config = Config(
    publish: Option<PublishConfig>,
    httpProxy: Option<ConfigValue>,
    httpsProxy: Option<ConfigValue>,
    noProxy: Option<ConfigValue>)

  /** One entry of the `uplinks` section: the remote registry and its own proxy keys. */
  datatype UplinkConf = UplinkConf(
    url: Url,
    httpProxy: Option<ConfigValue>,
    httpsProxy: Option<ConfigValue>,
    noProxy: Option<ConfigValue>)
}
