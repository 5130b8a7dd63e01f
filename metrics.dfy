/**
 * The metrics snapshot: what `get_current_stats` returns, what a metrics row plus its child rows
 * are rebuilt into, and what the anomaly detector scores. Times are seconds on the real line.
 */
module Metrics {
  import opened Wrappers

  /** One entry of `top_source_ips` / `top_dest_ips`. */
  datatype IpInfo = IpInfo(ip: string, count: int, location: Option<string>, latency: Option<real>)

  /** One entry of `port_traffic`. */
  datatype PortInfo = PortInfo(port: int, bytes: int)

  /**
   * The `protocols` field: a `{"tcp": …, "udp": …}` dictionary, a JSON text not yet decoded,
   * or any other decoded value.
   */
  datatype ProtocolsValue = Split(tcp: real, udp: real) | Text(json: string) | OtherValue

  datatype Snapshot = Snapshot(
    timestamp: real,
    incomingTraffic: real,
    outgoingTraffic: real,
    activeConnections: int,
    averageLatency: real,
    packetLoss: real,
    topSourceIps: seq<IpInfo>,
    topDestIps: seq<IpInfo>,
    protocols: ProtocolsValue,
    portTraffic: seq<PortInfo>)
}
