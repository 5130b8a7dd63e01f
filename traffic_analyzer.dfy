/**
 * Persistence of snapshots and the traffic summary: `save_metrics_to_db` flattens a metrics
 * dictionary into one metrics row plus one child row per convertible list entry,
 * `get_historical_metrics` rebuilds snapshots from the rows in a time window, `handle_db_error`
 * picks the fallback value of a failing call, and `analyze_traffic_patterns` reduces a list of
 * snapshots to means and peaks. The store is four tables held as sequences of rows.
 */
module TrafficAnalyzer {
  import opened Wrappers
  import opened Numeric
  import opened Metrics
  import PacketCollector

  // ---------------------------------------------------------------------------------------
  // The loosely typed dictionaries `save_metrics_to_db` receives

  /**
   * The value of one dictionary key: missing, an `int`, a `float`, or a value that `int()` and
   * `float()` reject (such as `None`).
   */
  datatype Field = Absent | IntV(i: int) | FloatV(x: real) | Invalid

  /** An entry of `top_source_ips` / `top_dest_ips`; `ip` and `location` are `None` when missing. */
  datatype LooseIp = LooseIp(ip: Option<string>, count: Field, location: Option<string>, latency: Field)

  /** An entry of `port_traffic`. */
  datatype LoosePort = LoosePort(port: Field, bytes: Field)

  /** A metrics dictionary; a missing list reads as the empty list (`metrics.get(key, [])`). */
  datatype LooseMetrics = LooseMetrics(
    timestamp: Option<real>,
    incomingTraffic: Field,
    outgoingTraffic: Field,
    activeConnections: Field,
    averageLatency: Field,
    packetLoss: Field,
    protocols: Option<ProtocolsValue>,
    topSourceIps: seq<LooseIp>,
    topDestIps: seq<LooseIp>,
    portTraffic: seq<LoosePort>)

  /** Python's `int(x)` on a float: truncation toward zero. */
  function Truncate(x: real): (n: int)
    ensures x >= 0.0 ==> 0 <= n && n as real <= x < n as real + 1.0
    ensures x < 0.0 ==> n <= 0 && n as real - 1.0 < x <= n as real
  {
    if x >= 0.0 then x.Floor else -((-x).Floor)
  }

  /** `float(d.get(key, 0))` */
  function ToFloat(f: Field): (r: Result<real>)
    ensures r.Failure? <==> f.Invalid?
    ensures f.Absent? ==> r == Success(0.0)
    ensures f.IntV? ==> r == Success(f.i as real)
    ensures f.FloatV? ==> r == Success(f.x)
  {
    match f
    case Absent => Success(0.0)
    case IntV(i) => Success(i as real)
    case FloatV(x) => Success(x)
    case Invalid => Failure("float() argument must be a string or a real number")
  }

  /** `int(d.get(key, 0))` */
  function ToInt(f: Field): (r: Result<int>)
    ensures r.Failure? <==> f.Invalid?
    ensures f.Absent? ==> r == Success(0)
    ensures f.IntV? ==> r == Success(f.i)
    ensures f.FloatV? ==> r == Success(Truncate(f.x))
  {
    match f
    case Absent => Success(0)
    case IntV(i) => Success(i)
    case FloatV(x) => Success(Truncate(x))
    case Invalid => Failure("int() argument must be a string or a real number")
  }

  // ---------------------------------------------------------------------------------------
  // Rows

  datatype MetricsRow = MetricsRow(
    id: nat,
    timestamp: real,
    incomingTraffic: real,
    outgoingTraffic: real,
    activeConnections: int,
    averageLatency: real,
    packetLoss: real,
    protocols: ProtocolsValue)

  /** A `SourceIP` or `DestinationIP` row; `location` and `latency` are nullable columns. */
  datatype IpRow = IpRow(metricsId: nat, ipAddress: string, count: int, location: Option<string>, latency: Option<real>)

  datatype PortRow = PortRow(metricsId: nat, port: int, bytes: int)

  /**
   * The `protocols` value stored: a dictionary or a string as given, `{"tcp": 0, "udp": 0}` when
   * missing, and also `{"tcp": 0, "udp": 0}` for any other value, since such a value has no `.get`.
   */
  function StoredProtocols(p: Option<ProtocolsValue>): (r: ProtocolsValue)
    ensures !r.OtherValue?
    ensures p.Some? && !p.value.OtherValue? ==> r == p.value
    ensures p.None? || p.value.OtherValue? ==> r == Split(0.0, 0.0)
  {
    match p
    case Some(Split(tcp, udp)) => Split(tcp, udp)
    case Some(Text(json)) => Text(json)
    case _ => Split(0.0, 0.0)
  }

  /**
   * The `NetworkMetrics(...)` constructor call: fails exactly when a scalar field is rejected by
   * `float()` or `int()`; a missing timestamp is the current time.
   */
  function MetricsRowOf(id: nat, m: LooseMetrics, now: real): (r: Result<MetricsRow>)
    ensures r.Success? <==>
      && !m.incomingTraffic.Invalid? && !m.outgoingTraffic.Invalid? && !m.activeConnections.Invalid?
      && !m.averageLatency.Invalid? && !m.packetLoss.Invalid?
    ensures r.Success? ==>
      && r.value.id == id
      && r.value.timestamp == m.timestamp.GetOr(now)
      && Success(r.value.incomingTraffic) == ToFloat(m.incomingTraffic)
      && Success(r.value.outgoingTraffic) == ToFloat(m.outgoingTraffic)
      && Success(r.value.activeConnections) == ToInt(m.activeConnections)
      && Success(r.value.averageLatency) == ToFloat(m.averageLatency)
      && Success(r.value.packetLoss) == ToFloat(m.packetLoss)
      && r.value.protocols == StoredProtocols(m.protocols)
  {
    var protocols := StoredProtocols(m.protocols);
    var incoming :- ToFloat(m.incomingTraffic);
    var outgoing :- ToFloat(m.outgoingTraffic);
    var connections :- ToInt(m.activeConnections);
    var latency :- ToFloat(m.averageLatency);
    var loss :- ToFloat(m.packetLoss);
    Success(MetricsRow(id, m.timestamp.GetOr(now), incoming, outgoing, connections, latency, loss, protocols))
  }

  /** The `SourceIP(...)` / `DestinationIP(...)` constructor call for one entry. */
  function IpRowOf(id: nat, e: LooseIp): (r: Result<IpRow>)
    ensures r.Success? <==> !e.count.Invalid? && !e.latency.Invalid?
    ensures r.Success? ==>
      && r.value.metricsId == id
      && r.value.ipAddress == e.ip.GetOr("unknown")
      && Success(r.value.count) == ToInt(e.count)
      && r.value.location == e.location
      && r.value.latency.Some? && Success(r.value.latency.value) == ToFloat(e.latency)
  {
    var count :- ToInt(e.count);
    var latency :- ToFloat(e.latency);
    Success(IpRow(id, e.ip.GetOr("unknown"), count, e.location, Some(latency)))
  }

  /** The `PortTraffic(...)` constructor call for one entry. */
  function PortRowOf(id: nat, e: LoosePort): (r: Result<PortRow>)
    ensures r.Success? <==> !e.port.Invalid? && !e.bytes.Invalid?
    ensures r.Success? ==>
      && r.value.metricsId == id && Success(r.value.port) == ToInt(e.port) && Success(r.value.bytes) == ToInt(e.bytes)
  {
    var port :- ToInt(e.port);
    var bytes :- ToInt(e.bytes);
    Success(PortRow(id, port, bytes))
  }

  /** The rows an IP list yields: one per entry that converts, in list order; the others are skipped. */
  function IpRowsOf(id: nat, es: seq<LooseIp>): (r: seq<IpRow>)
    ensures |r| <= |es|
    ensures forall k :: 0 <= k < |r| ==> r[k].metricsId == id
    ensures (forall k :: 0 <= k < |es| ==> IpRowOf(id, es[k]).Success?) ==> |r| == |es|
  {
    if |es| == 0 then []
    else
      var rest := IpRowsOf(id, es[..|es| - 1]);
      match IpRowOf(id, es[|es| - 1])
      case Success(row) => rest + [row]
      case Failure(_) => rest
  }

  /** The rows a port list yields: one per entry that converts, in list order. */
  function PortRowsOf(id: nat, es: seq<LoosePort>): (r: seq<PortRow>)
    ensures |r| <= |es|
    ensures forall k :: 0 <= k < |r| ==> r[k].metricsId == id
    ensures (forall k :: 0 <= k < |es| ==> PortRowOf(id, es[k]).Success?) ==> |r| == |es|
  {
    if |es| == 0 then []
    else
      var rest := PortRowsOf(id, es[..|es| - 1]);
      match PortRowOf(id, es[|es| - 1])
      case Success(row) => rest + [row]
      case Failure(_) => rest
  }

  /** A row is saved iff some entry of the list converts to it. */
  lemma {:induction false} IpRowsOfMembers(id: nat, es: seq<LooseIp>)
    ensures forall row :: row in IpRowsOf(id, es) <==> exists k :: 0 <= k < |es| && IpRowOf(id, es[k]) == Success(row)
  {
    if |es| > 0 {
      var init := es[..|es| - 1];
      IpRowsOfMembers(id, init);
      assert forall k :: 0 <= k < |init| ==> init[k] == es[k];
    }
  }

  lemma {:induction false} PortRowsOfMembers(id: nat, es: seq<LoosePort>)
    ensures forall row :: row in PortRowsOf(id, es) <==> exists k :: 0 <= k < |es| && PortRowOf(id, es[k]) == Success(row)
  {
    if |es| > 0 {
      var init := es[..|es| - 1];
      PortRowsOfMembers(id, init);
      assert forall k :: 0 <= k < |init| ==> init[k] == es[k];
    }
  }

  /** Saving two lists one after the other yields the rows of the first, then those of the second. */
  lemma {:induction false} IpRowsOfConcat(id: nat, a: seq<LooseIp>, b: seq<LooseIp>)
    ensures IpRowsOf(id, a + b) == IpRowsOf(id, a) + IpRowsOf(id, b)
  {
    if |b| == 0 {
      assert a + b == a;
    } else {
      var init, last := b[..|b| - 1], b[|b| - 1];
      IpRowsOfConcat(id, a, init);
      SplitLast(b);
      IpRowsOfConcatLast(id, a, init, last);
    }
  }

  lemma IpRowsOfConcatLast(id: nat, a: seq<LooseIp>, init: seq<LooseIp>, last: LooseIp)
    requires IpRowsOf(id, a + init) == IpRowsOf(id, a) + IpRowsOf(id, init)
    ensures IpRowsOf(id, a + (init + [last])) == IpRowsOf(id, a) + IpRowsOf(id, init + [last])
  {
    AppendAssociative(a, init, [last]);
    IpRowsOfSnoc(id, a + init, last);
    IpRowsOfSnoc(id, init, last);
    var e := IpRowOf(id, last);
    AppendAssociative(IpRowsOf(id, a), IpRowsOf(id, init), if e.Success? then [e.value] else []);
  }


  lemma AppendAssociative<T>(x: seq<T>, y: seq<T>, z: seq<T>)
    ensures (x + y) + z == x + (y + z)
  {
  }

  lemma SplitLast<T>(s: seq<T>)
    requires |s| > 0
    ensures s == s[..|s| - 1] + [s[|s| - 1]]
  {
  }

  /** The last entry contributes its row, if it converts, after the rows of the others. */
  lemma IpRowsOfSnoc(id: nat, es: seq<LooseIp>, last: LooseIp)
    ensures var e := IpRowOf(id, last);
      IpRowsOf(id, es + [last]) == IpRowsOf(id, es) + (if e.Success? then [e.value] else [])
  {
    assert (es + [last])[..|es|] == es;
  }


  lemma {:induction false} PortRowsOfConcat(id: nat, a: seq<LoosePort>, b: seq<LoosePort>)
    ensures PortRowsOf(id, a + b) == PortRowsOf(id, a) + PortRowsOf(id, b)
  {
    if |b| == 0 {
      assert a + b == a;
    } else {
      var init, last := b[..|b| - 1], b[|b| - 1];
      PortRowsOfConcat(id, a, init);
      SplitLast(b);
      PortRowsOfConcatLast(id, a, init, last);
    }
  }

  lemma PortRowsOfConcatLast(id: nat, a: seq<LoosePort>, init: seq<LoosePort>, last: LoosePort)
    requires PortRowsOf(id, a + init) == PortRowsOf(id, a) + PortRowsOf(id, init)
    ensures PortRowsOf(id, a + (init + [last])) == PortRowsOf(id, a) + PortRowsOf(id, init + [last])
  {
    AppendAssociative(a, init, [last]);
    PortRowsOfSnoc(id, a + init, last);
    PortRowsOfSnoc(id, init, last);
    var e := PortRowOf(id, last);
    AppendAssociative(PortRowsOf(id, a), PortRowsOf(id, init), if e.Success? then [e.value] else []);
  }


  lemma PortRowsOfSnoc(id: nat, es: seq<LoosePort>, last: LoosePort)
    ensures var e := PortRowOf(id, last);
      PortRowsOf(id, es + [last]) == PortRowsOf(id, es) + (if e.Success? then [e.value] else [])
  {
    assert (es + [last])[..|es|] == es;
  }


  /** A metrics dictionary whose every key is missing. */
  const EmptyMetrics := LooseMetrics(None, Absent, Absent, Absent, Absent, Absent, None, [], [], [])

  /** Missing scalars read as 0, a missing timestamp as now, a missing address as "unknown". */
  lemma MissingFieldsDefault(id: nat, now: real)
    ensures MetricsRowOf(id, EmptyMetrics, now) == Success(MetricsRow(id, now, 0.0, 0.0, 0, 0.0, 0.0, Split(0.0, 0.0)))
    ensures IpRowOf(id, LooseIp(None, Absent, None, Absent)) == Success(IpRow(id, "unknown", 0, None, Some(0.0)))
    ensures PortRowOf(id, LoosePort(Absent, Absent)) == Success(PortRow(id, 0, 0))
  {
  }

  /** An entry whose count Python cannot convert is skipped and the entries after it are still stored. */
  lemma BadEntrySkipped(id: nat, good: LooseIp)
    requires IpRowOf(id, good).Success?
    ensures IpRowsOf(id, [LooseIp(Some("10.0.0.1"), Invalid, None, FloatV(1.0)), good]) == [IpRowOf(id, good).value]
  {
    var es := [LooseIp(Some("10.0.0.1"), Invalid, None, FloatV(1.0)), good];
    assert es[..1][..0] == [];
  }

  // ---------------------------------------------------------------------------------------
  // From a snapshot to a dictionary and back from rows to a snapshot

  function IpDict(e: IpInfo): LooseIp {
    LooseIp(Some(e.ip), IntV(e.count), e.location, if e.latency.Some? then FloatV(e.latency.value) else Invalid)
  }

  function IpDicts(ips: seq<IpInfo>): (r: seq<LooseIp>)
    ensures |r| == |ips| && forall k :: 0 <= k < |ips| ==> r[k] == IpDict(ips[k])
  {
    seq(|ips|, k requires 0 <= k < |ips| => IpDict(ips[k]))
  }

  function PortDicts(ps: seq<PortInfo>): (r: seq<LoosePort>)
    ensures |r| == |ps| && forall k :: 0 <= k < |ps| ==> r[k] == LoosePort(IntV(ps[k].port), IntV(ps[k].bytes))
  {
    seq(|ps|, k requires 0 <= k < |ps| => LoosePort(IntV(ps[k].port), IntV(ps[k].bytes)))
  }

  /** A snapshot as the dictionary `get_current_stats` or `get_historical_metrics` hands over. */
  function AsDict(s: Snapshot): LooseMetrics {
    LooseMetrics(
      Some(s.timestamp), FloatV(s.incomingTraffic), FloatV(s.outgoingTraffic), IntV(s.activeConnections),
      FloatV(s.averageLatency), FloatV(s.packetLoss), Some(s.protocols),
      IpDicts(s.topSourceIps), IpDicts(s.topDestIps), PortDicts(s.portTraffic))
  }

  /**
   * The protocols of a loaded row: a string is decoded by `parse` (the JSON decoder), falling back
   * to `{"tcp": 80, "udp": 20}` when decoding fails; any other value is kept as it is.
   */
  function LoadProtocols(p: ProtocolsValue, parse: string -> Option<ProtocolsValue>): (r: ProtocolsValue)
    ensures p.Text? && parse(p.json).Some? ==> r == parse(p.json).value
    ensures p.Text? && parse(p.json).None? ==> r == Split(80.0, 20.0)
    ensures !p.Text? ==> r == p
  {
    if p.Text? then parse(p.json).GetOr(Split(80.0, 20.0)) else p
  }

  /** What a stored `protocols` value reads back as, per kind of value saved. */
  lemma ProtocolsThroughStore(p: ProtocolsValue, parse: string -> Option<ProtocolsValue>)
    ensures p.Split? ==> LoadProtocols(StoredProtocols(Some(p)), parse) == p
    ensures p.Text? ==> LoadProtocols(StoredProtocols(Some(p)), parse) == parse(p.json).GetOr(Split(80.0, 20.0))
    ensures p.OtherValue? ==> LoadProtocols(StoredProtocols(Some(p)), parse) == Split(0.0, 0.0)
  {
  }

  /** The children of the metrics row `id`, in insertion order (the ORM relationship). */
  function IpChildren(rows: seq<IpRow>, id: nat): (r: seq<IpRow>)
    ensures |r| <= |rows|
    ensures forall k :: 0 <= k < |r| ==> r[k].metricsId == id
  {
    if |rows| == 0 then []
    else IpChildren(rows[..|rows| - 1], id) + (if rows[|rows| - 1].metricsId == id then [rows[|rows| - 1]] else [])
  }

  function PortChildren(rows: seq<PortRow>, id: nat): (r: seq<PortRow>)
    ensures |r| <= |rows|
    ensures forall k :: 0 <= k < |r| ==> r[k].metricsId == id
  {
    if |rows| == 0 then []
    else PortChildren(rows[..|rows| - 1], id) + (if rows[|rows| - 1].metricsId == id then [rows[|rows| - 1]] else [])
  }

  /** Every row carrying `id` is a child, as often as it is stored, and no other row is. */
  lemma {:induction false} IpChildrenCounts(rows: seq<IpRow>, id: nat)
    ensures forall x :: multiset(IpChildren(rows, id))[x] == if x.metricsId == id then multiset(rows)[x] else 0
  {
    if |rows| > 0 {
      var init := rows[..|rows| - 1];
      IpChildrenCounts(init, id);
      assert rows == init + [rows[|rows| - 1]];
    }
  }

  lemma {:induction false} PortChildrenCounts(rows: seq<PortRow>, id: nat)
    ensures forall x :: multiset(PortChildren(rows, id))[x] == if x.metricsId == id then multiset(rows)[x] else 0
  {
    if |rows| > 0 {
      var init := rows[..|rows| - 1];
      PortChildrenCounts(init, id);
      assert rows == init + [rows[|rows| - 1]];
    }
  }

  /** The children of a concatenation are the children of each part, in order. */
  lemma {:induction false} IpChildrenConcat(a: seq<IpRow>, b: seq<IpRow>, id: nat)
    ensures IpChildren(a + b, id) == IpChildren(a, id) + IpChildren(b, id)
  {
    if |b| == 0 {
      assert a + b == a;
    } else {
      var init := b[..|b| - 1];
      IpChildrenConcat(a, init, id);
      assert (a + b)[..|a + b| - 1] == a + init;
      assert (a + b)[|a + b| - 1] == b[|b| - 1];
    }
  }

  lemma {:induction false} PortChildrenConcat(a: seq<PortRow>, b: seq<PortRow>, id: nat)
    ensures PortChildren(a + b, id) == PortChildren(a, id) + PortChildren(b, id)
  {
    if |b| == 0 {
      assert a + b == a;
    } else {
      var init := b[..|b| - 1];
      PortChildrenConcat(a, init, id);
      assert (a + b)[..|a + b| - 1] == a + init;
      assert (a + b)[|a + b| - 1] == b[|b| - 1];
    }
  }

  /** Appending rows that all belong to `id` after rows that all belong elsewhere: the children are the new rows. */
  lemma {:induction false} IpChildrenOfAppended(old_: seq<IpRow>, new_: seq<IpRow>, id: nat)
    requires forall k :: 0 <= k < |old_| ==> old_[k].metricsId != id
    requires forall k :: 0 <= k < |new_| ==> new_[k].metricsId == id
    ensures IpChildren(old_ + new_, id) == new_
  {
    if |new_| == 0 {
      assert old_ + new_ == old_;
      IpChildrenNone(old_, id);
    } else {
      var init := new_[..|new_| - 1];
      var last := new_[|new_| - 1];
      var all := old_ + new_;
      IpChildrenOfAppended(old_, init, id);
      assert all[..|all| - 1] == old_ + init;
      assert all[|all| - 1] == last;
      assert IpChildren(all, id) == IpChildren(old_ + init, id) + [last];
      assert new_ == init + [last];
    }
  }

  lemma {:induction false} IpChildrenNone(rows: seq<IpRow>, id: nat)
    requires forall k :: 0 <= k < |rows| ==> rows[k].metricsId != id
    ensures IpChildren(rows, id) == []
  {
    if |rows| > 0 {
      IpChildrenNone(rows[..|rows| - 1], id);
    }
  }

  lemma {:induction false} PortChildrenOfAppended(old_: seq<PortRow>, new_: seq<PortRow>, id: nat)
    requires forall k :: 0 <= k < |old_| ==> old_[k].metricsId != id
    requires forall k :: 0 <= k < |new_| ==> new_[k].metricsId == id
    ensures PortChildren(old_ + new_, id) == new_
  {
    if |new_| == 0 {
      assert old_ + new_ == old_;
      PortChildrenNone(old_, id);
    } else {
      var init := new_[..|new_| - 1];
      var last := new_[|new_| - 1];
      var all := old_ + new_;
      PortChildrenOfAppended(old_, init, id);
      assert all[..|all| - 1] == old_ + init;
      assert all[|all| - 1] == last;
      assert PortChildren(all, id) == PortChildren(old_ + init, id) + [last];
      assert new_ == init + [last];
    }
  }

  lemma {:induction false} PortChildrenNone(rows: seq<PortRow>, id: nat)
    requires forall k :: 0 <= k < |rows| ==> rows[k].metricsId != id
    ensures PortChildren(rows, id) == []
  {
    if |rows| > 0 {
      PortChildrenNone(rows[..|rows| - 1], id);
    }
  }

  function IpInfoOf(row: IpRow): IpInfo {
    IpInfo(row.ipAddress, row.count, row.location, row.latency)
  }

  /** `[{"ip": …, "count": …, "location": …, "latency": …} for ip in rows]` */
  function IpInfos(rows: seq<IpRow>): (r: seq<IpInfo>)
    ensures |r| == |rows|
    ensures forall k :: 0 <= k < |rows| ==> r[k] == IpInfoOf(rows[k])
  {
    seq(|rows|, k requires 0 <= k < |rows| => IpInfoOf(rows[k]))
  }

  /** `[{"port": …, "bytes": …} for pt in rows]` */
  function PortInfos(rows: seq<PortRow>): (r: seq<PortInfo>)
    ensures |r| == |rows|
    ensures forall k :: 0 <= k < |rows| ==> r[k] == PortInfo(rows[k].port, rows[k].bytes)
  {
    seq(|rows|, k requires 0 <= k < |rows| => PortInfo(rows[k].port, rows[k].bytes))
  }

  /** The response dictionary `get_historical_metrics` builds for one metrics row and its children. */
  function RebuildSnapshot(row: MetricsRow, sources: seq<IpRow>, dests: seq<IpRow>, ports: seq<PortRow>,
                           parse: string -> Option<ProtocolsValue>): (s: Snapshot)
    ensures s.timestamp == row.timestamp
    ensures s.incomingTraffic == row.incomingTraffic && s.outgoingTraffic == row.outgoingTraffic
    ensures s.activeConnections == row.activeConnections
    ensures s.averageLatency == row.averageLatency && s.packetLoss == row.packetLoss
    ensures s.protocols == LoadProtocols(row.protocols, parse)
    ensures s.topSourceIps == IpInfos(sources) && s.topDestIps == IpInfos(dests)
    ensures s.portTraffic == PortInfos(ports)
  {
    Snapshot(
      row.timestamp, row.incomingTraffic, row.outgoingTraffic, row.activeConnections,
      row.averageLatency, row.packetLoss, IpInfos(sources), IpInfos(dests),
      LoadProtocols(row.protocols, parse), PortInfos(ports))
  }

  /** Every IP entry has a latency, so none of them is dropped on the way to the store. */
  ghost predicate AllLatenciesKnown(ips: seq<IpInfo>) {
    forall k :: 0 <= k < |ips| ==> ips[k].latency.Some?
  }

  /** An IP list written as rows and read back is the same list when every entry has a latency. */
  lemma {:induction false} IpListRoundTrip(id: nat, ips: seq<IpInfo>)
    requires AllLatenciesKnown(ips)
    ensures IpInfos(IpRowsOf(id, IpDicts(ips))) == ips
  {
    if |ips| > 0 {
      var init := ips[..|ips| - 1];
      var es := IpDicts(ips);
      assert es[..|es| - 1] == IpDicts(init);
      IpListRoundTrip(id, init);
      var rest := IpRowsOf(id, IpDicts(init));
      var row := IpRowOf(id, es[|es| - 1]).value;
      assert IpRowsOf(id, es) == rest + [row];
      assert IpInfos(rest + [row]) == IpInfos(rest) + [IpInfoOf(row)];
      assert ips == init + [ips[|ips| - 1]];
    }
  }

  /** A port list written as rows and read back is the same list. */
  lemma {:induction false} PortListRoundTrip(id: nat, ps: seq<PortInfo>)
    ensures PortInfos(PortRowsOf(id, PortDicts(ps))) == ps
  {
    if |ps| > 0 {
      var init := ps[..|ps| - 1];
      var es := PortDicts(ps);
      assert es[..|es| - 1] == PortDicts(init);
      PortListRoundTrip(id, init);
      var rest := PortRowsOf(id, PortDicts(init));
      var row := PortRowOf(id, es[|es| - 1]).value;
      assert PortRowsOf(id, es) == rest + [row];
      assert PortInfos(rest + [row]) == PortInfos(rest) + [PortInfo(row.port, row.bytes)];
      assert ps == init + [ps[|ps| - 1]];
    }
  }

  /**
   * Save then load: the rows `save_metrics_to_db` writes for a snapshot, read back among rows of
   * other metrics, rebuild the same snapshot when its protocols are a dictionary and every IP entry
   * has a latency.
   */
  lemma SaveLoadRoundTrip(s: Snapshot, id: nat, now: real, parse: string -> Option<ProtocolsValue>,
                          oldSources: seq<IpRow>, oldDests: seq<IpRow>, oldPorts: seq<PortRow>)
    requires s.protocols.Split?
    requires AllLatenciesKnown(s.topSourceIps) && AllLatenciesKnown(s.topDestIps)
    requires forall k :: 0 <= k < |oldSources| ==> oldSources[k].metricsId != id
    requires forall k :: 0 <= k < |oldDests| ==> oldDests[k].metricsId != id
    requires forall k :: 0 <= k < |oldPorts| ==> oldPorts[k].metricsId != id
    ensures MetricsRowOf(id, AsDict(s), now).Success?
    ensures RebuildSnapshot(
      MetricsRowOf(id, AsDict(s), now).value,
      IpChildren(oldSources + IpRowsOf(id, AsDict(s).topSourceIps), id),
      IpChildren(oldDests + IpRowsOf(id, AsDict(s).topDestIps), id),
      PortChildren(oldPorts + PortRowsOf(id, AsDict(s).portTraffic), id),
      parse) == s
  {
    var m := AsDict(s);
    var row := MetricsRow(id, s.timestamp, s.incomingTraffic, s.outgoingTraffic, s.activeConnections,
                          s.averageLatency, s.packetLoss, s.protocols);
    assert MetricsRowOf(id, m, now) == Success(row);
    var srcRows := IpRowsOf(id, m.topSourceIps);
    var dstRows := IpRowsOf(id, m.topDestIps);
    var portRows := PortRowsOf(id, m.portTraffic);
    IpChildrenOfAppended(oldSources, srcRows, id);
    IpChildrenOfAppended(oldDests, dstRows, id);
    PortChildrenOfAppended(oldPorts, portRows, id);
    IpListRoundTrip(id, s.topSourceIps);
    IpListRoundTrip(id, s.topDestIps);
    PortListRoundTrip(id, s.portTraffic);
  }

  /** An IP entry without a latency is not stored: `float(None)` raises and the entry is skipped. */
  lemma UnknownLatencyDropped(id: nat, e: IpInfo)
    requires e.latency.None?
    ensures IpRowsOf(id, [IpDict(e)]) == []
  {
    assert [IpDict(e)][..0] == [];
  }

  // ---------------------------------------------------------------------------------------
  // Selecting and ordering the rows of a time window

  predicate InWindow(t: real, startTime: real, endTime: real) {
    startTime <= t <= endTime
  }

  /** `filter(timestamp >= start_time, timestamp <= end_time)` */
  function RowsInWindow(rows: seq<MetricsRow>, startTime: real, endTime: real): (r: seq<MetricsRow>)
    ensures |r| <= |rows|
    ensures forall k :: 0 <= k < |r| ==> r[k] in rows && InWindow(r[k].timestamp, startTime, endTime)
    ensures forall k :: 0 <= k < |rows| && InWindow(rows[k].timestamp, startTime, endTime) ==> rows[k] in r
  {
    if |rows| == 0 then []
    else
      var rest := RowsInWindow(rows[..|rows| - 1], startTime, endTime);
      var last := rows[|rows| - 1];
      assert forall k :: 0 <= k < |rows| - 1 ==> rows[k] == rows[..|rows| - 1][k];
      if InWindow(last.timestamp, startTime, endTime) then rest + [last] else rest
  }

  /** Every row inside the window is selected, as often as it is stored, and no other row is. */
  lemma {:induction false} RowsInWindowCounts(rows: seq<MetricsRow>, startTime: real, endTime: real)
    ensures forall x :: multiset(RowsInWindow(rows, startTime, endTime))[x] == if InWindow(x.timestamp, startTime, endTime) then multiset(rows)[x] else 0
  {
    if |rows| > 0 {
      var init := rows[..|rows| - 1];
      RowsInWindowCounts(init, startTime, endTime);
      assert rows == init + [rows[|rows| - 1]];
    }
  }

  /** The query over a concatenation selects from each part, in order. */
  lemma {:induction false} RowsInWindowConcat(a: seq<MetricsRow>, b: seq<MetricsRow>, startTime: real, endTime: real)
    ensures RowsInWindow(a + b, startTime, endTime) == RowsInWindow(a, startTime, endTime) + RowsInWindow(b, startTime, endTime)
  {
    if |b| == 0 {
      assert a + b == a;
    } else {
      var init := b[..|b| - 1];
      RowsInWindowConcat(a, init, startTime, endTime);
      assert (a + b)[..|a + b| - 1] == a + init;
      assert (a + b)[|a + b| - 1] == b[|b| - 1];
    }
  }

  /** Timestamps never decrease along the rows. */
  ghost predicate SortedByTime(rows: seq<MetricsRow>) {
    forall i, j :: 0 <= i < j < |rows| ==> rows[i].timestamp <= rows[j].timestamp
  }

  /** The rows whose conversion does not raise, in their order. */
  function Kept(rows: seq<MetricsRow>, failing: set<nat>): (r: seq<MetricsRow>)
    ensures |r| <= |rows|
    ensures (forall k :: 0 <= k < |rows| ==> rows[k].id !in failing) ==> r == rows
    ensures multiset(r) <= multiset(rows)
    ensures SortedByTime(rows) ==> SortedByTime(r)
  {
    if |rows| == 0 then []
    else
      var init := rows[..|rows| - 1];
      var last := rows[|rows| - 1];
      var rest := Kept(init, failing);
      assert rows == init + [last];
      if last.id in failing then rest
      else
        var r := rest + [last];
        assert SortedByTime(rows) ==> SortedByTime(r) by {
          if SortedByTime(rows) {
            forall k | 0 <= k < |rest| ensures rest[k].timestamp <= last.timestamp {
              assert rest[k] in multiset(init);
            }
          }
        }
        r
  }

  /** Every row that does not fail is kept, as often as it occurs, and no failing row is. */
  lemma {:induction false} KeptCounts(rows: seq<MetricsRow>, failing: set<nat>)
    ensures forall x :: multiset(Kept(rows, failing))[x] == if x.id in failing then 0 else multiset(rows)[x]
  {
    if |rows| > 0 {
      var init := rows[..|rows| - 1];
      KeptCounts(init, failing);
      assert rows == init + [rows[|rows| - 1]];
    }
  }

  /** Skipping over a concatenation skips in each part, so the kept rows stay in their order. */
  lemma {:induction false} KeptConcat(a: seq<MetricsRow>, b: seq<MetricsRow>, failing: set<nat>)
    ensures Kept(a + b, failing) == Kept(a, failing) + Kept(b, failing)
  {
    if |b| == 0 {
      assert a + b == a;
    } else {
      var init := b[..|b| - 1];
      KeptConcat(a, init, failing);
      assert (a + b)[..|a + b| - 1] == a + init;
      assert (a + b)[|a + b| - 1] == b[|b| - 1];
    }
  }

  /** Inserts `x` before the first row not earlier than it. */
  function InsertByTime(x: MetricsRow, rows: seq<MetricsRow>): (r: seq<MetricsRow>)
    requires SortedByTime(rows)
    ensures SortedByTime(r)
    ensures |r| == |rows| + 1
    ensures multiset(r) == multiset(rows) + multiset{x}
    ensures r[0] == x || (|rows| > 0 && r[0] == rows[0])
  {
    if |rows| == 0 || x.timestamp <= rows[0].timestamp then
      var r := [x] + rows;
      assert SortedByTime(r) by {
        forall j | 0 < j < |r| ensures r[0].timestamp <= r[j].timestamp {
          assert r[j] == rows[j - 1];
        }
        SortedAfterHead(r);
      }
      r
    else
      var rest := InsertByTime(x, rows[1..]);
      var r := [rows[0]] + rest;
      assert multiset(rows) == multiset{rows[0]} + multiset(rows[1..]) by {
        assert rows == [rows[0]] + rows[1..];
      }
      assert SortedByTime(r) by {
        forall j | 0 < j < |r| ensures r[0].timestamp <= r[j].timestamp {
          assert r[j] == rest[j - 1];
          assert rest[0].timestamp <= rest[j - 1].timestamp;
        }
        SortedAfterHead(r);
      }
      r
  }

  /** A head no later than any other row, followed by sorted rows, is sorted. */
  lemma SortedAfterHead(r: seq<MetricsRow>)
    requires |r| > 0
    requires forall j :: 0 < j < |r| ==> r[0].timestamp <= r[j].timestamp
    requires SortedByTime(r[1..])
    ensures SortedByTime(r)
  {
    forall i, j | 0 < i < j < |r| ensures r[i].timestamp <= r[j].timestamp {
      assert r[i] == r[1..][i - 1] && r[j] == r[1..][j - 1];
    }
  }

  /**
   * `order_by(timestamp.asc())`: a reordering of the rows by ascending timestamp (rows with equal
   * timestamps keep their relative order).
   */
  function OrderByTimestamp(rows: seq<MetricsRow>): (r: seq<MetricsRow>)
    ensures SortedByTime(r)
    ensures multiset(r) == multiset(rows)
    ensures |r| == |rows|
  {
    if |rows| == 0 then []
    else
      assert rows == [rows[0]] + rows[1..];
      InsertByTime(rows[0], OrderByTimestamp(rows[1..]))
  }

  // ---------------------------------------------------------------------------------------
  // The traffic summary

  datatype TrafficSummary = TrafficSummary(
    averageIncoming: real,
    averageOutgoing: real,
    peakIncoming: real,
    peakOutgoing: real,
    totalConnections: real,
    averageLatency: real)

  function Incoming(ms: seq<Snapshot>): seq<real> {
    seq(|ms|, k requires 0 <= k < |ms| => ms[k].incomingTraffic)
  }

  function Outgoing(ms: seq<Snapshot>): seq<real> {
    seq(|ms|, k requires 0 <= k < |ms| => ms[k].outgoingTraffic)
  }

  function Latencies(ms: seq<Snapshot>): seq<real> {
    seq(|ms|, k requires 0 <= k < |ms| => ms[k].averageLatency)
  }

  function Connections(ms: seq<Snapshot>): seq<real> {
    seq(|ms|, k requires 0 <= k < |ms| => ms[k].activeConnections as real)
  }

  /**
   * `analyze_traffic_patterns` once the history is fetched: all six fields 0 for no metrics;
   * otherwise means and maxima, where "total_connections" is in fact the mean connection count.
   */
  function Summarize(ms: seq<Snapshot>): (r: TrafficSummary)
    ensures |ms| == 0 ==> r == TrafficSummary(0.0, 0.0, 0.0, 0.0, 0.0, 0.0)
    ensures |ms| > 0 ==>
      && r.averageIncoming == Mean(Incoming(ms)) && r.averageOutgoing == Mean(Outgoing(ms))
      && r.totalConnections == Mean(Connections(ms)) && r.averageLatency == Mean(Latencies(ms))
    ensures |ms| > 0 ==>
      && (forall k :: 0 <= k < |ms| ==> ms[k].incomingTraffic <= r.peakIncoming && ms[k].outgoingTraffic <= r.peakOutgoing)
      && (exists k :: 0 <= k < |ms| && ms[k].incomingTraffic == r.peakIncoming)
      && (exists k :: 0 <= k < |ms| && ms[k].outgoingTraffic == r.peakOutgoing)
    ensures r.averageIncoming <= r.peakIncoming && r.averageOutgoing <= r.peakOutgoing
  {
    if |ms| == 0 then TrafficSummary(0.0, 0.0, 0.0, 0.0, 0.0, 0.0)
    else
      var incoming := Incoming(ms);
      var outgoing := Outgoing(ms);
      MeanAtMostMax(incoming);
      MeanAtMostMax(outgoing);
      assert forall k :: 0 <= k < |ms| ==> incoming[k] == ms[k].incomingTraffic;
      assert forall k :: 0 <= k < |ms| ==> outgoing[k] == ms[k].outgoingTraffic;
      TrafficSummary(Mean(incoming), Mean(outgoing), Max(incoming), Max(outgoing),
                     Mean(Connections(ms)), Mean(Latencies(ms)))
  }

  /** Averages lie within the range of the snapshots they summarise. */
  lemma SummaryWithinBounds(ms: seq<Snapshot>, lo: real, hi: real)
    requires |ms| > 0
    requires forall k :: 0 <= k < |ms| ==> lo <= ms[k].averageLatency <= hi && lo <= ms[k].incomingTraffic <= hi
    ensures lo <= Summarize(ms).averageLatency <= hi
    ensures lo <= Summarize(ms).averageIncoming <= Summarize(ms).peakIncoming <= hi
  {
    MeanWithin(Latencies(ms), lo, hi);
    MeanWithin(Incoming(ms), lo, hi);
  }

  // ---------------------------------------------------------------------------------------
  // The fallback decorator

  /** The wrapped functions `handle_db_error` tells apart by name. */
  datatype DbCall = NetworkMetricsCall | HistoricalMetricsCall | OtherCall(name: string)

  datatype Reply = Single(snapshot: Snapshot) | Many(snapshots: seq<Snapshot>)

  /**
   * `handle_db_error`: a successful call passes through; a failing `get_network_metrics` answers the
   * current snapshot (`currentStats`, a fresh `get_current_stats()`), a failing
   * `get_historical_metrics` answers [], and any other failure is raised again.
   */
  function HandleDbError(call: DbCall, outcome: Result<Reply>, currentStats: Snapshot): (r: Result<Reply>)
    ensures outcome.Success? ==> r == outcome
    ensures r.Failure? <==> outcome.Failure? && call.OtherCall?
    ensures r.Failure? ==> r == outcome
    ensures outcome.Failure? && call.NetworkMetricsCall? ==> r == Success(Single(currentStats))
    ensures outcome.Failure? && call.HistoricalMetricsCall? ==> r == Success(Many([]))
  {
    if outcome.Success? then outcome
    else
      match call
      case NetworkMetricsCall => Success(Single(currentStats))
      case HistoricalMetricsCall => Success(Many([]))
      case OtherCall(_) => outcome
  }

  // ---------------------------------------------------------------------------------------
  // The store

  /** The store's id discipline, on the tables' contents. */
  ghost predicate StoreValid(metrics: seq<MetricsRow>, sources: seq<IpRow>, dests: seq<IpRow>, ports: seq<PortRow>, nextId: nat) {
    && (forall k :: 0 <= k < |metrics| ==> metrics[k].id < nextId)
    && (forall i, j :: 0 <= i < j < |metrics| ==> metrics[i].id < metrics[j].id)
    && (forall k :: 0 <= k < |sources| ==> sources[k].metricsId < nextId)
    && (forall k :: 0 <= k < |dests| ==> dests[k].metricsId < nextId)
    && (forall k :: 0 <= k < |ports| ==> ports[k].metricsId < nextId)
  }

  /** Flushing a row under the next id, with children carrying that id, keeps the id discipline. */
  lemma FlushKeepsStoreValid(metrics: seq<MetricsRow>, sources: seq<IpRow>, dests: seq<IpRow>, ports: seq<PortRow>, nextId: nat,
                             row: MetricsRow, newSources: seq<IpRow>, newDests: seq<IpRow>, newPorts: seq<PortRow>)
    requires StoreValid(metrics, sources, dests, ports, nextId)
    requires row.id == nextId
    requires forall k :: 0 <= k < |newSources| ==> newSources[k].metricsId == nextId
    requires forall k :: 0 <= k < |newDests| ==> newDests[k].metricsId == nextId
    requires forall k :: 0 <= k < |newPorts| ==> newPorts[k].metricsId == nextId
    ensures StoreValid(metrics + [row], sources + newSources, dests + newDests, ports + newPorts, nextId + 1)
  {
  }

  class Database {
    var metrics: seq<MetricsRow>
    var sourceIps: seq<IpRow>
    var destIps: seq<IpRow>
    var portTraffic: seq<PortRow>
    /** The id the next flushed metrics row receives. */
    var nextId: nat

    /** Ids are handed out in increasing order, and every child row refers to an id already issued. */
    ghost predicate Valid()
      reads this
    {
      StoreValid(metrics, sourceIps, destIps, portTraffic, nextId)
    }

    constructor ()
      ensures Valid()
      ensures metrics == [] && sourceIps == [] && destIps == [] && portTraffic == [] && nextId == 1
    {
      metrics, sourceIps, destIps, portTraffic := [], [], [], [];
      nextId := 1;
    }

    /** The loop over an IP list: `db.add` per entry that converts, `continue` past the others. */
    static method CollectIpRows(id: nat, es: seq<LooseIp>) returns (rows: seq<IpRow>)
      ensures rows == IpRowsOf(id, es)
    {
      rows := [];
      for i := 0 to |es|
        invariant rows == IpRowsOf(id, es[..i])
      {
        assert es[..i + 1][..i] == es[..i];
        var row := IpRowOf(id, es[i]);
        if row.Failure? {
          continue;
        }
        rows := rows + [row.value];
      }
      assert es[..|es|] == es;
    }

    /** The loop over the port list. */
    static method CollectPortRows(id: nat, es: seq<LoosePort>) returns (rows: seq<PortRow>)
      ensures rows == PortRowsOf(id, es)
    {
      rows := [];
      for i := 0 to |es|
        invariant rows == PortRowsOf(id, es[..i])
      {
        assert es[..i + 1][..i] == es[..i];
        var row := PortRowOf(id, es[i]);
        if row.Failure? {
          continue;
        }
        rows := rows + [row.value];
      }
      assert es[..|es|] == es;
    }

    /**
     * `save_metrics_to_db` in one transaction: the metrics row is flushed under the next id, the
     * child rows that convert are added with that id, and `commitOk` says whether `commit` succeeds.
     * Any failure rolls the transaction back, leaves the store as it was and is reported.
     */
    method SaveMetricsToDb(m: LooseMetrics, now: real, commitOk: bool) returns (err: Option<string>)
      requires Valid()
      modifies this
      ensures Valid()
      ensures err.None? <==> commitOk && MetricsRowOf(old(nextId), m, now).Success?
      ensures err.None? ==>
        && metrics == old(metrics) + [MetricsRowOf(old(nextId), m, now).value]
        && sourceIps == old(sourceIps) + IpRowsOf(old(nextId), m.topSourceIps)
        && destIps == old(destIps) + IpRowsOf(old(nextId), m.topDestIps)
        && portTraffic == old(portTraffic) + PortRowsOf(old(nextId), m.portTraffic)
        && nextId == old(nextId) + 1
      ensures err.Some? ==>
        && metrics == old(metrics) && sourceIps == old(sourceIps) && destIps == old(destIps)
        && portTraffic == old(portTraffic) && nextId == old(nextId)
    {
      var id := nextId;
      var row := MetricsRowOf(id, m, now);
      if row.Failure? {
        return Some(row.error);
      }
      var sources := CollectIpRows(id, m.topSourceIps);
      var dests := CollectIpRows(id, m.topDestIps);
      var ports := CollectPortRows(id, m.portTraffic);
      if !commitOk {
        return Some("commit failed");
      }
      Flush(row.value, sources, dests, ports);
      err := None;
    }

    /** The commit: the metrics row and its children become visible and the next id is issued. */
    method Flush(row: MetricsRow, sources: seq<IpRow>, dests: seq<IpRow>, ports: seq<PortRow>)
      requires Valid() && row.id == nextId
      requires forall k :: 0 <= k < |sources| ==> sources[k].metricsId == nextId
      requires forall k :: 0 <= k < |dests| ==> dests[k].metricsId == nextId
      requires forall k :: 0 <= k < |ports| ==> ports[k].metricsId == nextId
      modifies this
      ensures Valid()
      ensures metrics == old(metrics) + [row] && nextId == old(nextId) + 1
      ensures sourceIps == old(sourceIps) + sources && destIps == old(destIps) + dests
      ensures portTraffic == old(portTraffic) + ports
    {
      FlushKeepsStoreValid(metrics, sourceIps, destIps, portTraffic, nextId, row, sources, dests, ports);
      metrics, sourceIps, destIps, portTraffic, nextId :=
        metrics + [row], sourceIps + sources, destIps + dests, portTraffic + ports, nextId + 1;
    }

    /** The snapshot `get_historical_metrics` builds for one metrics row and its children. */
    function Rebuild(row: MetricsRow, parse: string -> Option<ProtocolsValue>): Snapshot
      reads this
    {
      RebuildSnapshot(row, IpChildren(sourceIps, row.id), IpChildren(destIps, row.id),
                      PortChildren(portTraffic, row.id), parse)
    }

    /**
     * The conversion loop over ordered rows: one snapshot per row, except for the rows whose
     * conversion raises (those whose id is in `failing`), which are skipped.
     */
    function Converted(rows: seq<MetricsRow>, parse: string -> Option<ProtocolsValue>, failing: set<nat>): (r: seq<Snapshot>)
      reads this
      ensures |r| == |Kept(rows, failing)|
      ensures forall k :: 0 <= k < |r| ==> r[k] == Rebuild(Kept(rows, failing)[k], parse)
    {
      if |rows| == 0 then []
      else
        var rest := Converted(rows[..|rows| - 1], parse, failing);
        if rows[|rows| - 1].id in failing then rest else rest + [Rebuild(rows[|rows| - 1], parse)]
    }

    /** One more row extends the conversion by that row's snapshot, or by nothing when it fails. */
    lemma ConvertedSnoc(rows: seq<MetricsRow>, i: nat, parse: string -> Option<ProtocolsValue>, failing: set<nat>)
      requires i < |rows|
      ensures Converted(rows[..i + 1], parse, failing)
        == Converted(rows[..i], parse, failing) + (if rows[i].id in failing then [] else [Rebuild(rows[i], parse)])
    {
      assert rows[..i + 1][..i] == rows[..i];
    }

    /** The rows of the window `[startTime, endTime]` in ascending timestamp order. */
    function RowsOfWindow(startTime: real, endTime: real): seq<MetricsRow>
      reads this
    {
      OrderByTimestamp(RowsInWindow(metrics, startTime, endTime))
    }

    /**
     * `get_historical_metrics` under `handle_db_error`: [] when the query fails (`queryOk` false) or
     * matches no row; otherwise the converted rows of the window in ascending timestamp order.
     */
    method GetHistoricalMetrics(startTime: real, endTime: real, parse: string -> Option<ProtocolsValue>,
                                failing: set<nat>, queryOk: bool) returns (result: seq<Snapshot>)
      ensures !queryOk ==> result == []
      ensures queryOk ==> result == Converted(RowsOfWindow(startTime, endTime), parse, failing)
    {
      if !queryOk {
        return [];
      }
      var rows := RowsOfWindow(startTime, endTime);
      if |rows| == 0 {
        return [];
      }
      result := [];
      for i := 0 to |rows|
        invariant result == Converted(rows[..i], parse, failing)
      {
        ConvertedSnoc(rows, i, parse, failing);
        if rows[i].id in failing {
          continue;
        }
        result := result + [Rebuild(rows[i], parse)];
      }
      assert rows[..|rows|] == rows;
    }

    /** The history of a window: ascending timestamps, all inside the window, at most one snapshot per row. */
    lemma HistoryIsOrderedAndInWindow(startTime: real, endTime: real, parse: string -> Option<ProtocolsValue>, failing: set<nat>)
      ensures var r := Converted(RowsOfWindow(startTime, endTime), parse, failing);
        && |r| <= |RowsInWindow(metrics, startTime, endTime)|
        && (forall k :: 0 <= k < |r| ==> InWindow(r[k].timestamp, startTime, endTime))
        && (forall i, j :: 0 <= i < j < |r| ==> r[i].timestamp <= r[j].timestamp)
    {
      var window := RowsInWindow(metrics, startTime, endTime);
      var rows := RowsOfWindow(startTime, endTime);
      var kept := Kept(rows, failing);
      var r := Converted(rows, parse, failing);
      assert |kept| <= |window|;
      forall k | 0 <= k < |r| ensures r[k].timestamp == kept[k].timestamp && InWindow(kept[k].timestamp, startTime, endTime) {
        assert r[k] == Rebuild(kept[k], parse);
        assert kept[k] in multiset(rows);
        assert kept[k] in multiset(window);
      }
      assert SortedByTime(kept);
    }

    /** No row in the window, no history. */
    lemma EmptyWindowEmptyHistory(startTime: real, endTime: real, parse: string -> Option<ProtocolsValue>, failing: set<nat>)
      requires forall k :: 0 <= k < |metrics| ==> !InWindow(metrics[k].timestamp, startTime, endTime)
      ensures Converted(RowsOfWindow(startTime, endTime), parse, failing) == []
    {
    }

    /** `analyze_traffic_patterns`: the summary of the window's history. */
    method AnalyzeTrafficPatterns(startTime: real, endTime: real, parse: string -> Option<ProtocolsValue>,
                                  failing: set<nat>, queryOk: bool) returns (r: TrafficSummary)
      ensures !queryOk ==> r == TrafficSummary(0.0, 0.0, 0.0, 0.0, 0.0, 0.0)
      ensures queryOk ==> r == Summarize(Converted(RowsOfWindow(startTime, endTime), parse, failing))
      ensures r.averageIncoming <= r.peakIncoming && r.averageOutgoing <= r.peakOutgoing
    {
      var history := GetHistoricalMetrics(startTime, endTime, parse, failing, queryOk);
      r := Summarize(history);
    }
  }

  /**
   * `get_network_metrics`: takes the current snapshot, tries to save it, and answers the snapshot
   * whether or not the save succeeded.
   */
  method GetNetworkMetrics(db: Database, stats: PacketCollector.PacketStats, now: real, packetLoss: real, commitOk: bool)
    returns (s: Snapshot)
    requires db.Valid() && stats.Valid()
    modifies db
    ensures db.Valid()
    ensures s == stats.CurrentStats(now, packetLoss)
    ensures commitOk ==> |db.metrics| == |old(db.metrics)| + 1 && db.metrics[|db.metrics| - 1].timestamp == now
    ensures !commitOk ==> db.metrics == old(db.metrics)
  {
    s := stats.CurrentStats(now, packetLoss);
    var err := db.SaveMetricsToDb(AsDict(s), now, commitOk);
  }
}
