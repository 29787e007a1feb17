/**
 * The two records of pkg/core/config.go: the routing configuration and the
 * list that ApplyRoutes saves for a later cleanup.
 */
module CoreConfig {

  /** The daemon's configuration, as read from a file the model does not read. */
  datatype Config = Config(
    tetherDomains: seq<string>,
    tetherCIDRs: seq<string>,
    wifiKeyword: string,
    phoneKeyword: string,
    refreshCron: string)

  /** What is saved after an apply: the resolved addresses and the configured CIDRs. */
  datatype ResolvedIPs = ResolvedIPs(ips: seq<string>, cidrs: seq<string>)
}
