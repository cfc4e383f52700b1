/** The data passed between the three parts of TargetLib: nodes produced by subscriptions, and the
    selectors and service routes of a runtime configuration. */
module RuntimeModel {
  import opened Wrappers

  const DIRECT := "direct"
  const PROXY := "proxy"
  const URLTEST := "urltest"
  const NODE_FAILED := "failed"
  const DEFAULT_SERVICE_ID := "default"

  /** A node's outbound document as `json.Unmarshal` sees it. */
  datatype RawJson = Malformed | Null | Object(fields: map<string, string>)

  /** The typed outbound kept for the running configuration; its tag is assigned by the planner. */
  datatype NodeOutbound = NodeOutbound(kind: string, options: string)

  datatype Node = Node(
    id: string, subscriptionId: string, name: string, kind: string, countryCode: string,
    server: string, port: int, phase: string, error: string,
    outboundJson: RawJson, outbound: Option<NodeOutbound>)
  {
    predicate IsAvailable() {
      outbound.Some? && phase != NODE_FAILED
    }
  }

  datatype Selector = Selector(tag: string, nodeIds: seq<string>, selected: string, selectedAt: int)

  datatype ServiceRoute = ServiceRoute(
    serviceId: string, displayName: string, domains: seq<string>, selector: string, enabled: bool)

  datatype RuntimeModel = RuntimeModel(nodes: seq<Node>, selectors: seq<Selector>, routes: seq<ServiceRoute>)

  datatype ConfigError = InvalidSettings(message: string) | InvalidSource(message: string)

  function IdOf(n: Node): string { n.id }
  function TagOf(s: Selector): string { s.tag }
  function ServiceOf(r: ServiceRoute): string { r.serviceId }
  function SelectorOf(r: ServiceRoute): string { r.selector }

  predicate Available(n: Node) { n.IsAvailable() }
}
