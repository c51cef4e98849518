/** The messages both ADS clients read, reduced to the fields the clients look at. */
module Xds {

  datatype Option<+T> = None | Some(value: T)

  /** The resource types the clients tell apart; every other type URL is one of the mesh's internal types. */
  datatype TypeUrl =
    | ListenerType | ClusterType | EndpointType | RouteType | SecretType | ExtensionType
    | WorkloadAuthorizationType | AddressType | WorkloadType
    | InternalType(url: string)

  /** Cluster discovery: a declared type that is EDS, a declared type that is not, or no declared type at all. */
  datatype Discovery = Eds | OtherDiscoveryType | CustomOrUnset

  datatype Cluster = Cluster(name: string, discovery: Discovery)

  datatype HttpFilter = HttpFilter(name: string, configDiscovery: bool)

  /** A network filter is an HTTP connection manager, fetched by config discovery, or anything else. */
  datatype Filter =
    | ConnectionManager(name: string, rdsName: string, httpFilters: seq<HttpFilter>)
    | Discovered(name: string)
    | OtherFilter(name: string)

  /** The secret names a downstream TLS context mentions. */
  datatype TransportSocket = TransportSocket(validationSecret: string, certificateSecrets: seq<string>)

  datatype FilterChain = FilterChain(filters: seq<Filter>, socket: Option<TransportSocket>)

  datatype Listener = Listener(name: string, filterChains: seq<FilterChain>, defaultChain: Option<FilterChain>)

  /** Both clients skip a cluster only when it declares a discovery type other than EDS. */
  predicate EdsBacked(c: Cluster) {
    c.discovery != OtherDiscoveryType
  }

  function FilterChains(l: Listener): seq<FilterChain> {
    l.filterChains + match l.defaultChain case None => [] case Some(fc) => [fc]
  }

  /** The route configuration a filter fetches by RDS, if it names one. */
  function FilterRoute(f: Filter): seq<string> {
    if f.ConnectionManager? && f.rdsName != "" then [f.rdsName] else []
  }

  function FilterRoutes(fs: seq<Filter>): seq<string> {
    if fs == [] then [] else FilterRoutes(fs[..|fs| - 1]) + FilterRoute(fs[|fs| - 1])
  }

  function ChainRoutes(chains: seq<FilterChain>): seq<string> {
    if chains == [] then [] else ChainRoutes(chains[..|chains| - 1]) + FilterRoutes(chains[|chains| - 1].filters)
  }

  function ListenerRoutes(l: Listener): seq<string> {
    ChainRoutes(FilterChains(l))
  }
}
