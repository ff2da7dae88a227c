/** The data the dashboard keeps about the services it watches, and what one probe of a
    service records.  Times and latencies are milliseconds; the zero time of a service
    that was never probed is 0. */
module Platform {
  datatype Option<+T> = None | Some(value: T)

  datatype ServiceEntry = ServiceEntry(
    name: string, displayName: string, url: string, description: string, group: string)

  /** The JSON body of a /healthz answer, after decoding.  An absent map is the empty map. */
  datatype HealthResponse = HealthResponse(
    status: string, version: string, service: string, checks: map<string, string>)

  datatype ServiceStatus = ServiceStatus(
    entry: ServiceEntry, status: string, version: string, checks: map<string, string>,
    lastCheck: nat, latency: nat, error: string)

  /** Everything a probe can meet.  A cancelled context or a timeout is a TransportFailed. */
  datatype ProbeOutcome =
    | BuildFailed(message: string)
    | TransportFailed(message: string)
    | Undecodable(code: nat, message: string)
    | Decoded(code: nat, body: HealthResponse)

  function Unprobed(svc: ServiceEntry): ServiceStatus {
    ServiceStatus(svc, "unknown", "", map[], 0, 0, "")
  }

  /** What a probe of svc that began at `started` stores. */
  function ProbeResult(svc: ServiceEntry, started: nat, latency: nat, outcome: ProbeOutcome): ServiceStatus {
    match outcome
    case BuildFailed(m) =>
      ServiceStatus(svc, "error", "", map[], started, 0, "build request: " + m)
    case TransportFailed(m) =>
      ServiceStatus(svc, "down", "", map[], started, latency, m)
    case Undecodable(_, m) =>
      ServiceStatus(svc, "degraded", "", map[], started, latency, "decode response: " + m)
    case Decoded(code, h) =>
      ServiceStatus(svc, if code >= 500 then "down" else h.status, h.version, h.checks, started, latency, "")
  }

  predicate DistinctNames(services: seq<ServiceEntry>) {
    forall i, j | 0 <= i < j < |services| :: services[i].name != services[j].name
  }
}
