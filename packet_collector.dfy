/**
 * The packet statistics aggregator: the mutable statistics record that `reset_stats` zeroes and that
 * every captured packet (`process_packets`) or synthetic packet (`mock_packet_processing`) updates,
 * and the pure snapshot projection `get_current_stats`.
 */
module PacketCollector {
  import opened Wrappers
  import opened Numeric
  import opened Tally
  import opened Metrics

  /** Latency samples kept after every append (`samples[-1000:]`). */
  const MaxLatencySamples: nat := 1000
  /** Length of each top list (`most_common(5)`, `[:5]`). */
  const TopCount: nat := 5

  datatype Transport = Tcp(sport: int, dport: int) | Udp(sport: int, dport: int) | OtherTransport

  /** A captured packet: one without an IP layer, or an IP packet of `size` bytes (`len(packet)`). */
  datatype Packet = NonIp | Ip(src: string, dst: string, size: nat, transport: Transport)

  // ---------------------------------------------------------------------------------------
  // Direction of traffic

  /** Python's `s.startswith(prefix)`. */
  predicate StartsWith(s: string, prefix: string) {
    |prefix| <= |s| && s[..|prefix|] == prefix
  }

  /**
   * `is_local_ip`: a textual prefix test, so of 172.16.0.0/12 only addresses written "172.16." count.
   * The argument is always a string here, so the `except` branch returning False cannot be taken.
   */
  predicate IsLocalIp(ip: string) {
    StartsWith(ip, "192.168.") || StartsWith(ip, "10.") || StartsWith(ip, "172.16.")
  }

  lemma LocalIpExamples()
    ensures IsLocalIp("192.168.1.20") && IsLocalIp("10.0.0.1") && IsLocalIp("172.16.4.2")
    ensures !IsLocalIp("172.17.0.1") && !IsLocalIp("172.31.255.255")
    ensures !IsLocalIp("100.1.1.1") && !IsLocalIp("8.8.8.8") && !IsLocalIp("")
  {
    DiffersAt("172.17.0.1", "192.168.", 1);
    DiffersAt("172.17.0.1", "10.", 1);
    DiffersAt("172.17.0.1", "172.16.", 5);
    DiffersAt("172.31.255.255", "192.168.", 1);
    DiffersAt("172.31.255.255", "10.", 1);
    DiffersAt("172.31.255.255", "172.16.", 4);
    DiffersAt("100.1.1.1", "192.168.", 1);
    DiffersAt("100.1.1.1", "10.", 2);
    DiffersAt("100.1.1.1", "172.16.", 1);
    DiffersAt("8.8.8.8", "192.168.", 0);
    DiffersAt("8.8.8.8", "10.", 0);
    DiffersAt("8.8.8.8", "172.16.", 0);
  }

  /** A string that differs from `prefix` at some position of the prefix does not start with it. */
  lemma DiffersAt(s: string, prefix: string, k: nat)
    requires k < |prefix| && k < |s| && s[k] != prefix[k]
    ensures !StartsWith(s, prefix)
  {
    if |prefix| <= |s| {
      assert s[..|prefix|][k] != prefix[k];
    }
  }

  /** Locality is decided by a prefix: whatever follows a local prefix, the address stays local. */
  lemma LocalIpExtends(ip: string, rest: string)
    requires IsLocalIp(ip)
    ensures IsLocalIp(ip + rest)
  {
    var s := ip + rest;
    if StartsWith(ip, "192.168.") {
      assert s[..8] == ip[..8];
    } else if StartsWith(ip, "10.") {
      assert s[..3] == ip[..3];
    } else {
      assert s[..7] == ip[..7];
    }
  }

  // ---------------------------------------------------------------------------------------
  // The bounded latency reservoir

  /** `samples.append(x)` followed by `if len(samples) > 1000: samples = samples[-1000:]`. */
  function AppendCapped(samples: seq<real>, x: real): (r: seq<real>)
    ensures |r| == if |samples| < MaxLatencySamples then |samples| + 1 else MaxLatencySamples
    ensures r[|r| - 1] == x
    ensures forall i :: 0 <= i < |r| - 1 ==> r[i] == samples[|samples| - (|r| - 1) + i]
    ensures |samples| < MaxLatencySamples ==> r == samples + [x]
    ensures |samples| == MaxLatencySamples ==> r == samples[1..] + [x]
  {
    var s := samples + [x];
    if |s| > MaxLatencySamples then s[|s| - MaxLatencySamples..] else s
  }

  /** Every sample lies in `[lo, hi]`. */
  ghost predicate AllWithin(s: seq<real>, lo: real, hi: real) {
    forall i :: 0 <= i < |s| ==> lo <= s[i] <= hi
  }

  /** Appending a sample in `[lo, hi]` keeps every kept sample in `[lo, hi]`. */
  lemma AppendCappedWithin(samples: seq<real>, x: real, lo: real, hi: real)
    requires AllWithin(samples, lo, hi) && lo <= x <= hi
    ensures AllWithin(AppendCapped(samples, x), lo, hi)
  {
  }

  /** The reservoir after appending each of `xs` in turn. */
  function AppendAllCapped(samples: seq<real>, xs: seq<real>): seq<real> {
    if |xs| == 0 then samples
    else AppendCapped(AppendAllCapped(samples, xs[..|xs| - 1]), xs[|xs| - 1])
  }

  /** The last `n` elements of `s` (all of them when there are fewer). */
  function LastN(s: seq<real>, n: nat): seq<real> {
    if |s| <= n then s else s[|s| - n..]
  }

  /**
   * FIFO eviction: however many samples arrive, the reservoir holds exactly the most recent
   * 1000 of everything appended, in arrival order.
   */
  lemma {:induction false} ReservoirKeepsMostRecent(samples: seq<real>, xs: seq<real>)
    requires |samples| <= MaxLatencySamples
    ensures AppendAllCapped(samples, xs) == LastN(samples + xs, MaxLatencySamples)
  {
    if |xs| > 0 {
      var init := xs[..|xs| - 1];
      var x := xs[|xs| - 1];
      ReservoirKeepsMostRecent(samples, init);
      assert samples + xs == (samples + init) + [x] by { assert xs == init + [x]; }
      LastNThenAppend(samples + init, x);
    }
  }

  /** Capping after each append agrees with keeping the last 1000 of the whole stream. */
  lemma LastNThenAppend(u: seq<real>, x: real)
    ensures AppendCapped(LastN(u, MaxLatencySamples), x) == LastN(u + [x], MaxLatencySamples)
  {
    if |u| >= MaxLatencySamples {
      var k := |u| - MaxLatencySamples;
      assert LastN(u, MaxLatencySamples)[1..] == u[k + 1..];
      assert (u + [x])[k + 1..] == u[k + 1..] + [x];
    }
  }

  // ---------------------------------------------------------------------------------------
  // Pieces of the snapshot projection

  /**
   * Seconds since `reset_stats`: 0 when there is no start time, and 0 is then replaced by 1, so the
   * result is never 0; a non-zero difference (even a negative one) is kept as it is.
   */
  function ElapsedSeconds(startTime: Option<real>, now: real): (e: real)
    ensures e != 0.0
    ensures startTime.None? || now == startTime.value ==> e == 1.0
    ensures startTime.Some? && now != startTime.value ==> startTime.value + e == now
  {
    var elapsed := if startTime.Some? then now - startTime.value else 0.0;
    if elapsed == 0.0 then 1.0 else elapsed
  }

  /** `bytes * 8 / (elapsed * 1_000_000)`, the rate in megabits per second. */
  function Mbps(bytes: nat, elapsed: real): (mbps: real)
    requires elapsed != 0.0
    ensures mbps * (elapsed * 1000000.0) == (bytes * 8) as real
    ensures elapsed > 0.0 ==> mbps >= 0.0
  {
    (bytes * 8) as real / (elapsed * 1000000.0)
  }

  /** 100,000 incoming and 50,000 outgoing bytes over one second are 0.8 and 0.4 Mbps. */
  lemma OneSecondRates()
    ensures Mbps(100000, 1.0) == 0.8 && Mbps(50000, 1.0) == 0.4
  {
  }

  /**
   * The TCP/UDP split in percent of TCP+UDP packets: the two shares add up to 100 when any TCP or
   * UDP packet was seen and are both 0 otherwise.
   */
  function ProtocolDistribution(tcp: nat, udp: nat): (p: ProtocolsValue)
    ensures p.Split?
    ensures 0.0 <= p.tcp <= 100.0 && 0.0 <= p.udp <= 100.0
    ensures tcp + udp > 0 ==> p.tcp + p.udp == 100.0
    ensures tcp + udp > 0 ==> p.tcp * ((tcp + udp) as real) == 100.0 * (tcp as real)
    ensures tcp + udp == 0 ==> p.tcp == 0.0 && p.udp == 0.0
  {
    if tcp + udp > 0 then
      var n := (tcp + udp) as real;
      var tcpShare := tcp as real / n;
      var udpShare := udp as real / n;
      SharesOfWhole(tcp as real, udp as real);
      assert (tcpShare * 100.0) * n == 100.0 * (tcpShare * n);
      Split(tcpShare * 100.0, udpShare * 100.0)
    else
      Split(0.0, 0.0)
  }

  /** Two non-negative parts of a positive whole have shares in `[0, 1]` that add up to 1. */
  lemma SharesOfWhole(a: real, b: real)
    requires a >= 0.0 && b >= 0.0 && a + b > 0.0
    ensures (a / (a + b)) * (a + b) == a
    ensures a / (a + b) + b / (a + b) == 1.0
    ensures 0.0 <= a / (a + b) <= 1.0 && 0.0 <= b / (a + b) <= 1.0
  {
    var n := a + b;
    assert (a / n) * n == a && (b / n) * n == b;
    assert (a / n + b / n) * n == (a / n) * n + (b / n) * n;
    DivideBounds(a, n, 0.0, 1.0);
    DivideBounds(b, n, 0.0, 1.0);
  }

  /** One entry of a top-IP list: the address, its count, location "Unknown" and the average latency. */
  function IpEntry(e: Entry<string>, latency: real): IpInfo {
    IpInfo(e.key, e.value, Some("Unknown"), Some(latency))
  }

  /** `[{"ip": ip, "count": count, "location": "Unknown", "latency": latency} for ip, count in c.most_common(5)]` */
  function TopIps(t: seq<Entry<string>>, latency: real): (r: seq<IpInfo>)
    requires DistinctKeys(t)
    ensures |r| == if TopCount < |t| then TopCount else |t|
    ensures forall k :: 0 <= k < |r| ==> r[k] == IpEntry(t[TopIndices(t, TopCount)[k]], latency)
    ensures forall k :: 0 <= k < |r| ==> r[k].count == Get(t, r[k].ip)
    ensures forall a, b :: 0 <= a < b < |r| ==> r[a].count >= r[b].count
  {
    var top := Top(t, TopCount);
    var r := seq(|top|, k requires 0 <= k < |top| => IpEntry(top[k], latency));
    assert forall k :: 0 <= k < |r| ==> r[k].count == Get(t, r[k].ip) by {
      forall k | 0 <= k < |r| ensures r[k].count == Get(t, r[k].ip) {
        GetAt(t, TopIndices(t, TopCount)[k]);
      }
    }
    r
  }

  /** `[{"port": p, "bytes": b} for p, b in sorted(port_traffic.items(), key=bytes, reverse=True)[:5]]` */
  function TopPorts(t: seq<Entry<int>>): (r: seq<PortInfo>)
    requires DistinctKeys(t)
    ensures |r| == if TopCount < |t| then TopCount else |t|
    ensures forall k :: 0 <= k < |r| ==> r[k] == PortInfo(t[TopIndices(t, TopCount)[k]].key, t[TopIndices(t, TopCount)[k]].value)
    ensures forall k :: 0 <= k < |r| ==> r[k].bytes == Get(t, r[k].port)
    ensures forall a, b :: 0 <= a < b < |r| ==> r[a].bytes >= r[b].bytes
  {
    var top := Top(t, TopCount);
    var r := seq(|top|, k requires 0 <= k < |top| => PortInfo(top[k].key, top[k].value));
    assert forall k :: 0 <= k < |r| ==> r[k].bytes == Get(t, r[k].port) by {
      forall k | 0 <= k < |r| ensures r[k].bytes == Get(t, r[k].port) {
        GetAt(t, TopIndices(t, TopCount)[k]);
      }
    }
    r
  }

  // ---------------------------------------------------------------------------------------
  // Synthetic packets

  /** The four octets drawn by `generate_random_ip`. */
  datatype Octets = Octets(a: nat, b: nat, c: nat, d: nat)

  /** The ranges of `generate_random_ip`: 1–255, 0–255, 0–255, 1–254. */
  predicate IsGeneratedOctets(o: Octets) {
    1 <= o.a <= 255 && o.b <= 255 && o.c <= 255 && 1 <= o.d <= 254
  }

  function DigitChar(d: nat): char
    requires d < 10
  {
    "0123456789"[d]
  }

  /** `str(n)` for a non-negative integer. */
  function Decimal(n: nat): (s: string)
    ensures |s| > 0
    ensures forall i :: 0 <= i < |s| ==> '0' <= s[i] <= '9'
  {
    if n < 10 then [DigitChar(n)] else Decimal(n / 10) + [DigitChar(n % 10)]
  }

  /** The dotted-quad text `generate_random_ip` formats. */
  function FormatIp(o: Octets): string {
    Decimal(o.a) + "." + Decimal(o.b) + "." + Decimal(o.c) + "." + Decimal(o.d)
  }

  /**
   * A generated source or destination can look local, for instance "10.0.0.1"; the synthetic
   * path still chooses incoming or outgoing by coin flip.
   */
  lemma GeneratedIpCanLookLocal()
    ensures IsGeneratedOctets(Octets(10, 0, 0, 1)) && FormatIp(Octets(10, 0, 0, 1)) == "10.0.0.1"
    ensures IsLocalIp(FormatIp(Octets(10, 0, 0, 1)))
  {
    assert Decimal(10) == "10";
    assert FormatIp(Octets(10, 0, 0, 1)) == "10.0.0.1";
  }

  /**
   * The random draws of one `mock_packet_processing` call, in the order it makes them: source and
   * destination octets, the size, the 50% incoming coin, the 80% TCP coin, the port and the latency.
   */
  datatype MockDraw = MockDraw(src: Octets, dst: Octets, size: nat, incoming: bool, tcp: bool, port: int, latency: real)

  predicate IsValidDraw(d: MockDraw) {
    && IsGeneratedOctets(d.src) && IsGeneratedOctets(d.dst)
    && 500 <= d.size <= 1500
    && 1 <= d.port <= 65535
    && 10.0 <= d.latency <= 200.0
  }

  /** Number of packets with an IP layer. */
  function IpCount(ps: seq<Packet>): nat {
    if |ps| == 0 then 0 else IpCount(ps[..|ps| - 1]) + (if ps[|ps| - 1].Ip? then 1 else 0)
  }

  // ---------------------------------------------------------------------------------------
  // The statistics record as a value, and the effect of each kind of update on it

  /** Every field of the statistics record. */
  datatype Record = Record(
    startTime: Option<real>,
    totalPackets: nat,
    ipPackets: nat,
    tcpPackets: nat,
    udpPackets: nat,
    otherPackets: nat,
    incomingBytes: nat,
    outgoingBytes: nat,
    sourceIps: seq<Entry<string>>,
    destIps: seq<Entry<string>>,
    portTraffic: seq<Entry<int>>,
    latencySamples: seq<real>)

  /**
   * One pass of the `process_packets` loop body on the record: the packet is counted once in the
   * total and once among TCP, UDP and other; an IP packet is also counted by address and direction.
   */
  function Step(r: Record, p: Packet, latency: real): (r': Record)
    ensures r'.startTime == r.startTime && r'.totalPackets == r.totalPackets + 1
    ensures r'.ipPackets == r.ipPackets + (if p.Ip? then 1 else 0)
    ensures r'.tcpPackets + r'.udpPackets + r'.otherPackets == r.tcpPackets + r.udpPackets + r.otherPackets + 1
    ensures Total(r'.sourceIps) == Total(r.sourceIps) + (if p.Ip? then 1 else 0)
    ensures Total(r'.destIps) == Total(r.destIps) + (if p.Ip? then 1 else 0)
    ensures r'.latencySamples == AppendCapped(r.latencySamples, latency)
  {
    var counted := r.(totalPackets := r.totalPackets + 1, latencySamples := AppendCapped(r.latencySamples, latency));
    match p
    case NonIp => counted.(otherPackets := counted.otherPackets + 1)
    case Ip(src, dst, size, transport) =>
      var local := IsLocalIp(dst);
      var addressed := counted.(
        ipPackets := counted.ipPackets + 1,
        sourceIps := Add(counted.sourceIps, src, 1),
        destIps := Add(counted.destIps, dst, 1),
        incomingBytes := counted.incomingBytes + (if local then size else 0),
        outgoingBytes := counted.outgoingBytes + (if local then 0 else size));
      match transport
      case Tcp(_, dport) =>
        addressed.(tcpPackets := addressed.tcpPackets + 1, portTraffic := Add(addressed.portTraffic, dport, size))
      case Udp(_, dport) =>
        addressed.(udpPackets := addressed.udpPackets + 1, portTraffic := Add(addressed.portTraffic, dport, size))
      case OtherTransport => addressed.(otherPackets := addressed.otherPackets + 1)
  }

  /** The fields an IP packet changes, and how, determine its step. */
  lemma IpStepFields(r: Record, r': Record, src: string, dst: string, size: nat, transport: Transport, latency: real)
    requires r'.startTime == r.startTime && r'.totalPackets == r.totalPackets + 1 && r'.ipPackets == r.ipPackets + 1
    requires r'.sourceIps == Add(r.sourceIps, src, 1) && r'.destIps == Add(r.destIps, dst, 1)
    requires r'.incomingBytes == r.incomingBytes + (if IsLocalIp(dst) then size else 0)
    requires r'.outgoingBytes == r.outgoingBytes + (if IsLocalIp(dst) then 0 else size)
    requires r'.latencySamples == AppendCapped(r.latencySamples, latency)
    requires r'.tcpPackets == r.tcpPackets + (if transport.Tcp? then 1 else 0)
    requires r'.udpPackets == r.udpPackets + (if transport.Udp? then 1 else 0)
    requires r'.otherPackets == r.otherPackets + (if transport.OtherTransport? then 1 else 0)
    requires r'.portTraffic == if transport.OtherTransport? then r.portTraffic else Add(r.portTraffic, transport.dport, size)
    ensures r' == Step(r, Ip(src, dst, size, transport), latency)
  {
  }

  /** The record after a queue of packets, in arrival order, each with its latency sample. */
  function StepAll(r: Record, ps: seq<Packet>, ls: seq<real>): (r': Record)
    requires |ls| == |ps|
    ensures r'.startTime == r.startTime && r'.totalPackets == r.totalPackets + |ps|
    ensures r'.ipPackets == r.ipPackets + IpCount(ps)
    ensures r'.tcpPackets + r'.udpPackets + r'.otherPackets == r.tcpPackets + r.udpPackets + r.otherPackets + |ps|
    ensures Total(r'.sourceIps) == Total(r.sourceIps) + IpCount(ps)
    ensures Total(r'.destIps) == Total(r.destIps) + IpCount(ps)
    ensures r'.latencySamples == AppendAllCapped(r.latencySamples, ls)
  {
    if |ps| == 0 then r
    else Step(StepAll(r, ps[..|ps| - 1], ls[..|ls| - 1]), ps[|ps| - 1], ls[|ls| - 1])
  }

  /**
   * One call of `mock_packet_processing` on the record: an IP packet that is TCP or UDP, never
   * "other", whose direction is the coin flip.
   */
  function MockStep(r: Record, d: MockDraw): (r': Record)
    ensures r'.startTime == r.startTime
    ensures r'.totalPackets == r.totalPackets + 1 && r'.ipPackets == r.ipPackets + 1
    ensures r'.tcpPackets + r'.udpPackets == r.tcpPackets + r.udpPackets + 1 && r'.otherPackets == r.otherPackets
    ensures r'.incomingBytes + r'.outgoingBytes == r.incomingBytes + r.outgoingBytes + d.size
    ensures Total(r'.portTraffic) == Total(r.portTraffic) + d.size
    ensures r'.latencySamples == AppendCapped(r.latencySamples, d.latency)
  {
    r.(
      totalPackets := r.totalPackets + 1,
      ipPackets := r.ipPackets + 1,
      sourceIps := Add(r.sourceIps, FormatIp(d.src), 1),
      destIps := Add(r.destIps, FormatIp(d.dst), 1),
      incomingBytes := r.incomingBytes + (if d.incoming then d.size else 0),
      outgoingBytes := r.outgoingBytes + (if d.incoming then 0 else d.size),
      tcpPackets := r.tcpPackets + (if d.tcp then 1 else 0),
      udpPackets := r.udpPackets + (if d.tcp then 0 else 1),
      portTraffic := Add(r.portTraffic, d.port, d.size),
      latencySamples := AppendCapped(r.latencySamples, d.latency))
  }

  /** The record after a burst of synthetic packets, in order. */
  function MockStepAll(r: Record, ds: seq<MockDraw>): (r': Record)
    ensures r'.startTime == r.startTime
    ensures r'.totalPackets == r.totalPackets + |ds| && r'.ipPackets == r.ipPackets + |ds|
    ensures r'.tcpPackets + r'.udpPackets == r.tcpPackets + r.udpPackets + |ds| && r'.otherPackets == r.otherPackets
  {
    if |ds| == 0 then r else MockStep(MockStepAll(r, ds[..|ds| - 1]), ds[|ds| - 1])
  }

  /** One more packet of the queue is one more step. */
  lemma StepAllPrefix(r: Record, ps: seq<Packet>, ls: seq<real>, i: nat)
    requires |ls| == |ps| && i < |ps|
    ensures StepAll(r, ps[..i + 1], ls[..i + 1]) == Step(StepAll(r, ps[..i], ls[..i]), ps[i], ls[i])
  {
    assert ps[..i + 1][..i] == ps[..i];
    assert ls[..i + 1][..i] == ls[..i];
  }

  /** One more draw of the burst is one more synthetic step. */
  lemma MockStepAllPrefix(r: Record, ds: seq<MockDraw>, i: nat)
    requires i < |ds|
    ensures MockStepAll(r, ds[..i + 1]) == MockStep(MockStepAll(r, ds[..i]), ds[i])
  {
    assert ds[..i + 1][..i] == ds[..i];
  }

  // ---------------------------------------------------------------------------------------
  // The statistics record

  class PacketStats {
    var startTime: Option<real>
    var totalPackets: nat
    var ipPackets: nat
    var tcpPackets: nat
    var udpPackets: nat
    var otherPackets: nat
    var incomingBytes: nat
    var outgoingBytes: nat
    var sourceIps: seq<Entry<string>>
    var destIps: seq<Entry<string>>
    var portTraffic: seq<Entry<int>>
    var latencySamples: seq<real>

    /**
     * Conservation laws every update keeps: each packet is TCP, UDP or other; each IP packet is
     * counted once by source and once by destination; only IP packets carry bytes to a port; the
     * reservoir is bounded and holds samples of the synthetic range.
     */
    ghost predicate Valid()
      reads this
    {
      CountersValid() && |latencySamples| <= MaxLatencySamples && AllWithin(latencySamples, 10.0, 200.0)
    }

    /** The part of `Valid` about the counters and tables. */
    ghost predicate CountersValid()
      reads this
    {
      && DistinctKeys(sourceIps) && DistinctKeys(destIps) && DistinctKeys(portTraffic)
      && totalPackets == tcpPackets + udpPackets + otherPackets
      && Total(sourceIps) == ipPackets && Total(destIps) == ipPackets
      && tcpPackets + udpPackets <= ipPackets <= totalPackets
      && Total(portTraffic) <= incomingBytes + outgoingBytes
    }

    /** What holds while only synthetic packets have been counted since the last reset. */
    ghost predicate OnlyMockTraffic()
      reads this
    {
      otherPackets == 0 && ipPackets == totalPackets
    }

    /** Every counter, table and the reservoir are empty. */
    ghost predicate IsCleared()
      reads this
    {
      && totalPackets == 0 && ipPackets == 0 && tcpPackets == 0 && udpPackets == 0 && otherPackets == 0
      && incomingBytes == 0 && outgoingBytes == 0
      && sourceIps == [] && destIps == [] && portTraffic == [] && latencySamples == []
    }

    /** The record's fields as one value. */
    ghost function Value(): Record
      reads this
    {
      Record(startTime, totalPackets, ipPackets, tcpPackets, udpPackets, otherPackets,
             incomingBytes, outgoingBytes, sourceIps, destIps, portTraffic, latencySamples)
    }

    /** The module-level record before the first `reset_stats`: no start time, everything zero. */
    constructor ()
      ensures Valid() && OnlyMockTraffic() && IsCleared()
      ensures startTime == None
    {
      startTime := None;
      totalPackets, ipPackets, tcpPackets, udpPackets, otherPackets := 0, 0, 0, 0, 0;
      incomingBytes, outgoingBytes := 0, 0;
      sourceIps, destIps, portTraffic, latencySamples := [], [], [], [];
    }

    /** `reset_stats`: a fresh record whose start time is `now`. */
    method ResetStats(now: real)
      modifies this
      ensures Valid() && OnlyMockTraffic() && IsCleared()
      ensures startTime == Some(now)
    {
      startTime := Some(now);
      totalPackets, ipPackets, tcpPackets, udpPackets, otherPackets := 0, 0, 0, 0, 0;
      incomingBytes, outgoingBytes := 0, 0;
      sourceIps, destIps, portTraffic, latencySamples := [], [], [], [];
    }

    /** The body of the `process_packets` loop for one dequeued packet, with its latency sample. */
    method ProcessPacket(p: Packet, latency: real)
      requires Valid()
      requires 10.0 <= latency <= 200.0
      modifies this
      ensures Valid()
      ensures startTime == old(startTime)
      ensures totalPackets == old(totalPackets) + 1
      ensures latencySamples == AppendCapped(old(latencySamples), latency)
      ensures p.NonIp? ==>
        && ipPackets == old(ipPackets) && otherPackets == old(otherPackets) + 1
        && tcpPackets == old(tcpPackets) && udpPackets == old(udpPackets)
        && incomingBytes == old(incomingBytes) && outgoingBytes == old(outgoingBytes)
        && sourceIps == old(sourceIps) && destIps == old(destIps) && portTraffic == old(portTraffic)
      ensures p.Ip? ==>
        && ipPackets == old(ipPackets) + 1
        && sourceIps == Add(old(sourceIps), p.src, 1) && destIps == Add(old(destIps), p.dst, 1)
        && incomingBytes == old(incomingBytes) + (if IsLocalIp(p.dst) then p.size else 0)
        && outgoingBytes == old(outgoingBytes) + (if IsLocalIp(p.dst) then 0 else p.size)
      ensures p.Ip? && p.transport.Tcp? ==>
        && tcpPackets == old(tcpPackets) + 1 && udpPackets == old(udpPackets) && otherPackets == old(otherPackets)
        && portTraffic == Add(old(portTraffic), p.transport.dport, p.size)
      ensures p.Ip? && p.transport.Udp? ==>
        && udpPackets == old(udpPackets) + 1 && tcpPackets == old(tcpPackets) && otherPackets == old(otherPackets)
        && portTraffic == Add(old(portTraffic), p.transport.dport, p.size)
      ensures p.Ip? && p.transport.OtherTransport? ==>
        && otherPackets == old(otherPackets) + 1 && tcpPackets == old(tcpPackets) && udpPackets == old(udpPackets)
        && portTraffic == old(portTraffic)
      ensures Value() == Step(old(Value()), p, latency)
    {
      ghost var before := Value();
      match p {
        case NonIp =>
          CountNonIpPacket();
          RecordLatency(latency);
          assert Value() == before.(totalPackets := before.totalPackets + 1, otherPackets := before.otherPackets + 1,
                                    latencySamples := AppendCapped(before.latencySamples, latency));
        case Ip(src, dst, size, transport) =>
          CountIpPacket(src, dst, size, transport);
          RecordLatency(latency);
          IpStepFields(before, Value(), src, dst, size, transport, latency);
      }
    }

    /** A packet without an IP layer only counts as "other". */
    method CountNonIpPacket()
      requires CountersValid()
      modifies this`totalPackets, this`otherPackets
      ensures CountersValid()
      ensures totalPackets == old(totalPackets) + 1 && otherPackets == old(otherPackets) + 1
    {
      totalPackets := totalPackets + 1;
      otherPackets := otherPackets + 1;
    }

    /** The IP branch of `process_packets`: addresses, direction, transport and port. */
    method CountIpPacket(src: string, dst: string, size: nat, transport: Transport)
      requires CountersValid()
      modifies this`totalPackets, this`ipPackets, this`tcpPackets, this`udpPackets, this`otherPackets
      modifies this`incomingBytes, this`outgoingBytes, this`sourceIps, this`destIps, this`portTraffic
      ensures CountersValid()
      ensures totalPackets == old(totalPackets) + 1 && ipPackets == old(ipPackets) + 1
      ensures sourceIps == Add(old(sourceIps), src, 1) && destIps == Add(old(destIps), dst, 1)
      ensures incomingBytes == old(incomingBytes) + (if IsLocalIp(dst) then size else 0)
      ensures outgoingBytes == old(outgoingBytes) + (if IsLocalIp(dst) then 0 else size)
      ensures transport.Tcp? ==>
        && tcpPackets == old(tcpPackets) + 1 && udpPackets == old(udpPackets) && otherPackets == old(otherPackets)
        && portTraffic == Add(old(portTraffic), transport.dport, size)
      ensures transport.Udp? ==>
        && udpPackets == old(udpPackets) + 1 && tcpPackets == old(tcpPackets) && otherPackets == old(otherPackets)
        && portTraffic == Add(old(portTraffic), transport.dport, size)
      ensures transport.OtherTransport? ==>
        && otherPackets == old(otherPackets) + 1 && tcpPackets == old(tcpPackets) && udpPackets == old(udpPackets)
        && portTraffic == old(portTraffic)
    {
      totalPackets := totalPackets + 1;
      CountAddresses(src, dst, IsLocalIp(dst), size);
      CountTransport(transport, size);
    }

    /** Counts the packet by transport and, for TCP and UDP, adds its bytes to its destination port. */
    method CountTransport(transport: Transport, size: nat)
      requires DistinctKeys(portTraffic)
      modifies this`tcpPackets, this`udpPackets, this`otherPackets, this`portTraffic
      ensures DistinctKeys(portTraffic)
      ensures tcpPackets + udpPackets + otherPackets == old(tcpPackets + udpPackets + otherPackets) + 1
      ensures Total(portTraffic) == old(Total(portTraffic)) + (if transport.OtherTransport? then 0 else size)
      ensures transport.Tcp? ==>
        && tcpPackets == old(tcpPackets) + 1 && udpPackets == old(udpPackets) && otherPackets == old(otherPackets)
        && portTraffic == Add(old(portTraffic), transport.dport, size)
      ensures transport.Udp? ==>
        && udpPackets == old(udpPackets) + 1 && tcpPackets == old(tcpPackets) && otherPackets == old(otherPackets)
        && portTraffic == Add(old(portTraffic), transport.dport, size)
      ensures transport.OtherTransport? ==>
        && otherPackets == old(otherPackets) + 1 && tcpPackets == old(tcpPackets) && udpPackets == old(udpPackets)
        && portTraffic == old(portTraffic)
    {
      match transport {
        case Tcp(_, dport) =>
          tcpPackets := tcpPackets + 1;
          CountPort(dport, size);
        case Udp(_, dport) =>
          udpPackets := udpPackets + 1;
          CountPort(dport, size);
        case OtherTransport =>
          otherPackets := otherPackets + 1;
      }
    }

    /**
     * Counts an IP packet once by source and once by destination and adds its bytes to the
     * incoming or the outgoing total.
     */
    method CountAddresses(src: string, dst: string, incoming: bool, size: nat)
      requires DistinctKeys(sourceIps) && DistinctKeys(destIps)
      modifies this`ipPackets, this`sourceIps, this`destIps, this`incomingBytes, this`outgoingBytes
      ensures DistinctKeys(sourceIps) && DistinctKeys(destIps)
      ensures Total(sourceIps) == old(Total(sourceIps)) + 1 && Total(destIps) == old(Total(destIps)) + 1
      ensures ipPackets == old(ipPackets) + 1
      ensures sourceIps == Add(old(sourceIps), src, 1) && destIps == Add(old(destIps), dst, 1)
      ensures incomingBytes == old(incomingBytes) + (if incoming then size else 0)
      ensures outgoingBytes == old(outgoingBytes) + (if incoming then 0 else size)
    {
      ipPackets := ipPackets + 1;
      AddDistinct(sourceIps, src, 1);
      AddDistinct(destIps, dst, 1);
      sourceIps := Add(sourceIps, src, 1);
      destIps := Add(destIps, dst, 1);
      if incoming {
        incomingBytes := incomingBytes + size;
      } else {
        outgoingBytes := outgoingBytes + size;
      }
    }

    /** `port_traffic[port] += size` */
    method CountPort(port: int, size: nat)
      requires DistinctKeys(portTraffic)
      modifies this`portTraffic
      ensures DistinctKeys(portTraffic)
      ensures Total(portTraffic) == old(Total(portTraffic)) + size
      ensures portTraffic == Add(old(portTraffic), port, size)
    {
      AddDistinct(portTraffic, port, size);
      portTraffic := Add(portTraffic, port, size);
    }

    /** Appends one latency sample to the bounded reservoir. */
    method RecordLatency(latency: real)
      requires |latencySamples| <= MaxLatencySamples && AllWithin(latencySamples, 10.0, 200.0)
      requires 10.0 <= latency <= 200.0
      modifies this`latencySamples
      ensures |latencySamples| <= MaxLatencySamples && AllWithin(latencySamples, 10.0, 200.0)
      ensures latencySamples == AppendCapped(old(latencySamples), latency)
    {
      AppendCappedWithin(latencySamples, latency, 10.0, 200.0);
      latencySamples := AppendCapped(latencySamples, latency);
    }

    /**
     * `process_packets` draining a queue: the packets are applied in arrival order, one latency
     * sample each.
     */
    method ProcessQueue(packets: seq<Packet>, latencies: seq<real>)
      requires Valid()
      requires |latencies| == |packets|
      requires forall i :: 0 <= i < |latencies| ==> 10.0 <= latencies[i] <= 200.0
      modifies this
      ensures Valid()
      ensures startTime == old(startTime)
      ensures totalPackets == old(totalPackets) + |packets|
      ensures ipPackets == old(ipPackets) + IpCount(packets)
      ensures latencySamples == AppendAllCapped(old(latencySamples), latencies)
      ensures Value() == StepAll(old(Value()), packets, latencies)
    {
      ghost var before := Value();
      for i := 0 to |packets|
        invariant Valid()
        invariant Value() == StepAll(before, packets[..i], latencies[..i])
      {
        StepAllPrefix(before, packets, latencies, i);
        ProcessPacket(packets[i], latencies[i]);
      }
      assert packets[..|packets|] == packets;
      assert latencies[..|latencies|] == latencies;
      assert Value() == StepAll(before, packets, latencies);
    }

    /** `mock_packet_processing`: one synthetic TCP or UDP packet; the direction is the coin flip. */
    method MockPacketProcessing(draw: MockDraw)
      requires Valid()
      requires IsValidDraw(draw)
      modifies this
      ensures Valid()
      ensures old(OnlyMockTraffic()) ==> OnlyMockTraffic()
      ensures startTime == old(startTime)
      ensures totalPackets == old(totalPackets) + 1 && ipPackets == old(ipPackets) + 1
      ensures otherPackets == old(otherPackets)
      ensures sourceIps == Add(old(sourceIps), FormatIp(draw.src), 1)
      ensures destIps == Add(old(destIps), FormatIp(draw.dst), 1)
      ensures incomingBytes == old(incomingBytes) + (if draw.incoming then draw.size else 0)
      ensures outgoingBytes == old(outgoingBytes) + (if draw.incoming then 0 else draw.size)
      ensures tcpPackets == old(tcpPackets) + (if draw.tcp then 1 else 0)
      ensures udpPackets == old(udpPackets) + (if draw.tcp then 0 else 1)
      ensures portTraffic == Add(old(portTraffic), draw.port, draw.size)
      ensures latencySamples == AppendCapped(old(latencySamples), draw.latency)
      ensures Value() == MockStep(old(Value()), draw)
    {
      CountMockPacket(draw);
      RecordLatency(draw.latency);
    }

    /** The counter updates of `mock_packet_processing`. */
    method CountMockPacket(draw: MockDraw)
      requires CountersValid()
      modifies this`totalPackets, this`ipPackets, this`tcpPackets, this`udpPackets, this`otherPackets
      modifies this`incomingBytes, this`outgoingBytes, this`sourceIps, this`destIps, this`portTraffic
      ensures CountersValid()
      ensures totalPackets == old(totalPackets) + 1 && ipPackets == old(ipPackets) + 1
      ensures otherPackets == old(otherPackets)
      ensures sourceIps == Add(old(sourceIps), FormatIp(draw.src), 1)
      ensures destIps == Add(old(destIps), FormatIp(draw.dst), 1)
      ensures incomingBytes == old(incomingBytes) + (if draw.incoming then draw.size else 0)
      ensures outgoingBytes == old(outgoingBytes) + (if draw.incoming then 0 else draw.size)
      ensures tcpPackets == old(tcpPackets) + (if draw.tcp then 1 else 0)
      ensures udpPackets == old(udpPackets) + (if draw.tcp then 0 else 1)
      ensures portTraffic == Add(old(portTraffic), draw.port, draw.size)
    {
      totalPackets := totalPackets + 1;
      CountAddresses(FormatIp(draw.src), FormatIp(draw.dst), draw.incoming, draw.size);
      // The synthetic packet has no source port; only the destination port is counted.
      CountTransport(if draw.tcp then Tcp(0, draw.port) else Udp(0, draw.port), draw.size);
    }

    /** One tick of `mock_data_generator`: a burst of 10 to 50 synthetic packets. */
    method MockBurst(draws: seq<MockDraw>)
      requires Valid()
      requires 10 <= |draws| <= 50
      requires forall i :: 0 <= i < |draws| ==> IsValidDraw(draws[i])
      modifies this
      ensures Valid()
      ensures old(OnlyMockTraffic()) ==> OnlyMockTraffic()
      ensures startTime == old(startTime)
      ensures totalPackets == old(totalPackets) + |draws|
      ensures tcpPackets + udpPackets == old(tcpPackets + udpPackets) + |draws|
      ensures otherPackets == old(otherPackets)
      ensures Value() == MockStepAll(old(Value()), draws)
    {
      ghost var before := Value();
      for i := 0 to |draws|
        invariant Valid()
        invariant Value() == MockStepAll(before, draws[..i])
      {
        MockStepAllPrefix(before, draws, i);
        MockPacketProcessing(draws[i]);
      }
      assert draws[..|draws|] == draws;
      assert Value() == MockStepAll(before, draws);
    }

    /**
     * `get_current_stats` with the clock reading `now` and the synthetic packet loss. Repeated
     * calls with no update in between give the same snapshot.
     */
    function CurrentStats(now: real, packetLoss: real): (s: Snapshot)
      reads this
      requires DistinctKeys(sourceIps) && DistinctKeys(destIps) && DistinctKeys(portTraffic)
      requires AllWithin(latencySamples, 10.0, 200.0)
      ensures s.timestamp == now && s.packetLoss == packetLoss
      ensures s.incomingTraffic * (ElapsedSeconds(startTime, now) * 1000000.0) == (incomingBytes * 8) as real
      ensures s.outgoingTraffic * (ElapsedSeconds(startTime, now) * 1000000.0) == (outgoingBytes * 8) as real
      ensures s.activeConnections == |Keys(sourceIps)|
      ensures |latencySamples| == 0 ==> s.averageLatency == 0.0
      ensures |latencySamples| > 0 ==> s.averageLatency == Mean(latencySamples) && 10.0 <= s.averageLatency <= 200.0
      ensures s.protocols == ProtocolDistribution(tcpPackets, udpPackets)
      ensures s.protocols.Split?
      ensures tcpPackets + udpPackets > 0 ==> s.protocols.tcp + s.protocols.udp == 100.0
      ensures tcpPackets + udpPackets == 0 ==> s.protocols.tcp == 0.0 && s.protocols.udp == 0.0
      ensures s.topSourceIps == TopIps(sourceIps, s.averageLatency)
      ensures s.topDestIps == TopIps(destIps, s.averageLatency)
      ensures s.portTraffic == TopPorts(portTraffic)
    {
      var elapsed := ElapsedSeconds(startTime, now);
      var averageLatency := MeanOrZero(latencySamples);
      assert |latencySamples| > 0 ==> 10.0 <= averageLatency <= 200.0 by {
        if |latencySamples| > 0 {
          MeanWithin(latencySamples, 10.0, 200.0);
        }
      }
      assert |sourceIps| == |Keys(sourceIps)| by {
        LengthIsKeyCount(sourceIps);
      }
      var incoming := Mbps(incomingBytes, elapsed);
      var outgoing := Mbps(outgoingBytes, elapsed);
      var protocols := ProtocolDistribution(tcpPackets, udpPackets);
      Snapshot(
        timestamp := now,
        incomingTraffic := incoming,
        outgoingTraffic := outgoing,
        activeConnections := |sourceIps|,
        averageLatency := averageLatency,
        packetLoss := packetLoss,
        topSourceIps := TopIps(sourceIps, averageLatency),
        topDestIps := TopIps(destIps, averageLatency),
        protocols := protocols,
        portTraffic := TopPorts(portTraffic))
    }
  }
}
