# Network monitor core in Dafny

This project models the backend of a small network-monitoring service and proves properties of
that model. The backend has three parts, each modelled here:

- **Packet statistics collector** (`packet_collector.dfy`). A mutable statistics record counts
  packets as they are processed, whether captured or synthetic. It tracks totals, IP, TCP, UDP and
  other packets, incoming and outgoing bytes, per-address packet counters, per-port byte counters
  and a latency reservoir capped at 1000 samples. `get_current_stats` projects the record into a
  snapshot holding:
  - rates in Mbps;
  - the mean latency;
  - the top five source addresses, top five destination addresses and top five ports;
  - the TCP/UDP split in percent.
- **Traffic analyzer** (`traffic_analyzer.dfy`). A snapshot is saved as one metrics row plus child
  rows for source addresses, destination addresses and ports. The snapshots of a time window are
  rebuilt from those rows in timestamp order. A window is summarised by means and peaks. Database
  errors are mapped to fallback values.
- **Anomaly detector** (`anomaly_detector.dfy`). A detector holds two scalers and two isolation
  forests. `train` or `load_models` moves it from untrained to trained. It scores one snapshot by
  OR-ing the two forests' verdicts and taking the minimum of their scores. It answers neutrally
  when untrained or on any error. An entry point trains it from the last seven days of history.

Supporting modules:
- `wrappers.dfy`: `Option` and `Result`.
- `numeric.dfy`: sums, means and maxima over sequences of reals.
- `tally.dfy`: the insertion-ordered counter that stands for Python's `Counter` and
  `defaultdict(int)`, and its stable top-N ranking. Ties go to the key seen first, as with
  `most_common` and a stable `sorted(..., reverse=True)`.
- `metrics.dfy`: the snapshot record.

Where the code leaves a choice to its environment, the model takes it as a parameter:
- the clock becomes `now`;
- random draws (latency sample, packet loss, synthetic packet fields) become parameters whose
  ranges are preconditions;
- a commit or query that may fail becomes a `commitOk` or `queryOk` flag;
- the JSON decoder becomes `parse`;
- the rows whose conversion raises are given as a set `failing` of row ids;
- scikit-learn and joblib become a record of function values (`Anomaly.Sklearn`) and a
  description of the model files (`Anomaly.ModelFiles`). Each call may fail.

Behaviour of the code that is easy to misread:
- A destination counts as local when its text starts with `192.168.`, `10.` or `172.16.`. Only
  the `172.16.` prefix is matched, not all of 172.16.0.0/12, so `172.17.0.1` is not local.
- The elapsed time is replaced by 1 only when it is exactly 0, not bounded below by 1.
- `train` and `load_models` assign fields one at a time, so a failure part way through leaves
  the earlier assignments in place.
- Synthetic packets choose their direction by a coin flip. They do not consult the locality test.

## Model

| member | source | states |
|---|---|---|
| PacketCollector.LocalIpExamples | backend/collectors/packet_collector.py:177-184 | 192.168.x, 10.x and 172.16.x addresses are local; 172.17.0.1, 172.31.255.255, 100.1.1.1, 8.8.8.8 and the empty text are not |
| PacketCollector.LocalIpExtends | backend/collectors/packet_collector.py:177-184 | locality is a prefix test: extending a local address keeps it local |
| PacketCollector.AppendCapped | backend/collectors/packet_collector.py:164-168 | after append-and-trim the reservoir holds at most 1000 samples and ends with the new one; the earlier samples are the most recent old ones in order; when it was full exactly the oldest is dropped |
| PacketCollector.AppendCappedWithin | backend/collectors/packet_collector.py:164-168 | append-and-trim keeps every sample inside the sampling range |
| PacketCollector.ReservoirKeepsMostRecent | backend/collectors/packet_collector.py:164-168 | appending any number of samples one by one leaves exactly the last 1000 of all samples seen |
| PacketCollector.LastNThenAppend | backend/collectors/packet_collector.py:166-168 | trimming to the last 1000 and then appending one more equals appending and then trimming |
| PacketCollector.ElapsedSeconds | backend/collectors/packet_collector.py:263-270 | the elapsed time is never 0; it is 1 when no start time is set or when no time has passed, and otherwise now minus the start time |
| PacketCollector.Mbps | backend/collectors/packet_collector.py:272-274 | the rate times elapsed times 1,000,000 equals bytes times 8; the rate is non-negative for positive elapsed time |
| PacketCollector.OneSecondRates | backend/collectors/packet_collector.py:272-274 | 100000 bytes in one second is 0.8 Mbps and 50000 bytes is 0.4 Mbps |
| PacketCollector.ProtocolDistribution | backend/collectors/packet_collector.py:300-307 | both percentages lie in [0, 100]; with any TCP or UDP packet they sum to 100 and TCP's is 100·tcp/(tcp+udp); with none both are 0 |
| PacketCollector.SharesOfWhole | backend/collectors/packet_collector.py:301-304 | the two shares of a positive whole lie in [0, 1], sum to 1 and scale back to their parts |
| PacketCollector.TopIps | backend/collectors/packet_collector.py:282-292 | at most five entries, in descending count; each carries its address's true count, location "Unknown" and the mean latency |
| PacketCollector.TopPorts | backend/collectors/packet_collector.py:294-298 | at most five entries, in descending bytes, each carrying its port's true byte count |
| PacketCollector.Decimal | backend/collectors/packet_collector.py:186-188 | a number is printed as a non-empty string of digits |
| PacketCollector.GeneratedIpCanLookLocal | backend/collectors/packet_collector.py:186-188 | a generated address such as 10.0.0.1 can pass the locality test |
| PacketCollector.Step | backend/collectors/packet_collector.py:116-168 | one packet on the statistics record: the start time is kept, the total rises by 1, the IP count and both address totals by 1 iff the packet has an IP layer, tcp+udp+other by 1, and the reservoir takes the capped append of the sample |
| PacketCollector.StepAll | backend/collectors/packet_collector.py:107-175 | a queue of packets applied in arrival order: the total rises by the queue length, the IP count and both address totals by the number of IP packets, tcp+udp+other by the queue length, and the reservoir takes the capped appends of all samples in order |
| PacketCollector.MockStep | backend/collectors/packet_collector.py:199-234 | one synthetic packet on the record: total and IP count rise by 1, tcp+udp by 1, the other count is unchanged, incoming+outgoing and the port bytes rise by the size, and the reservoir takes the capped append |
| PacketCollector.MockStepAll | backend/collectors/packet_collector.py:245-250 | a burst of synthetic packets in order: total, IP count and tcp+udp rise by the burst size and the other count is unchanged |
| PacketCollector.PacketStats.constructor | backend/collectors/packet_collector.py:54-67 | the initial record has no start time, zero counters, empty tables and an empty reservoir |
| PacketCollector.PacketStats.ResetStats | backend/collectors/packet_collector.py:78-94 | a reset clears every counter, table and the reservoir, sets the start time to now and re-establishes the invariants |
| PacketCollector.PacketStats.ProcessPacket | backend/collectors/packet_collector.py:116-168 | one packet raises the total by 1 and exactly one of tcp/udp/other by 1; an IP packet raises the IP count and one source and one destination counter, and adds its size to incoming iff the destination is local, otherwise to outgoing; only TCP/UDP add the size to their destination port; a non-IP packet touches nothing else; the invariants hold; the whole new record is `Step` of the old one |
| PacketCollector.PacketStats.CountNonIpPacket | backend/collectors/packet_collector.py:158-160 | a non-IP packet raises the total and the other count by 1 |
| PacketCollector.PacketStats.CountIpPacket | backend/collectors/packet_collector.py:116-156 | the counter updates of one IP packet, with the split by direction and by transport |
| PacketCollector.PacketStats.CountAddresses | backend/collectors/packet_collector.py:120-138 | one source and one destination counter are raised by 1, and the size goes to exactly one direction |
| PacketCollector.PacketStats.CountTransport | backend/collectors/packet_collector.py:140-156 | exactly one of tcp/udp/other rises by 1; TCP and UDP add the size to the destination port's bytes, and other transports leave the port table unchanged |
| PacketCollector.PacketStats.CountPort | backend/collectors/packet_collector.py:145-152 | only the given port's bytes rise by the size, and the total port bytes rise by the size |
| PacketCollector.PacketStats.RecordLatency | backend/collectors/packet_collector.py:162-168 | the reservoir becomes the capped append of the sample and stays bounded and in range |
| PacketCollector.PacketStats.ProcessQueue | backend/collectors/packet_collector.py:107-175 | draining a queue raises the total by the number of packets and the IP count by the number of IP packets; the reservoir keeps the last 1000 samples; the invariants hold; the whole new record is `StepAll` of the old one over the queue |
| PacketCollector.PacketStats.MockPacketProcessing | backend/collectors/packet_collector.py:194-234 | a synthetic packet raises the total and the IP count by 1 and exactly one of tcp/udp by 1; it never touches the other count, so a mock-only run keeps total == ip == tcp + udp; its size goes to the chosen direction and port; the whole new record is `MockStep` of the old one |
| PacketCollector.PacketStats.CountMockPacket | backend/collectors/packet_collector.py:199-227 | the counter updates of one synthetic packet |
| PacketCollector.PacketStats.MockBurst | backend/collectors/packet_collector.py:245-250 | a burst of 10 to 50 synthetic packets raises total and tcp+udp by the burst size and leaves the other count unchanged; a mock-only run stays mock-only; the whole new record is `MockStepAll` of the old one over the burst |
| PacketCollector.PacketStats.CurrentStats | backend/collectors/packet_collector.py:258-327 | the snapshot's rates are bytes·8/(elapsed·10^6); its latency is the sample mean (in [10, 200]) or 0 with no samples; the protocols are `ProtocolDistribution` of the TCP and UDP counts, so the split sums to 100 or is 0/0; the top lists are the ranked top five; active connections is the number of distinct source addresses |
| Tally.Add | backend/collectors/packet_collector.py:129-130 | incrementing a key raises its count by d, leaves every other key's count alone and raises the total by d |
| Tally.AddShape | backend/collectors/packet_collector.py:145 | an increment either keeps the key order or appends the new key at the end |
| Tally.AddKeys | backend/collectors/packet_collector.py:129-130 | the keys after an increment are the old keys plus the key; the key is appended iff it was absent |
| Tally.AddDistinct | backend/collectors/packet_collector.py:129-130 | an increment keeps the keys distinct |
| Tally.GetAbsent | backend/collectors/packet_collector.py:129-130 | a key never counted reads as 0 |
| Tally.LengthIsKeyCount | backend/collectors/packet_collector.py:317 | the number of entries is the number of distinct keys |
| Tally.GetAt | backend/collectors/packet_collector.py:283-286 | the count stored at an entry is the count read for its key |
| Tally.Insert | backend/collectors/packet_collector.py:283-298 | ranked insertion adds exactly the new index to the ranking |
| Tally.InsertRanked | backend/collectors/packet_collector.py:283-298 | inserting a lower-positioned index into a ranking keeps it ranked: higher values first, ties by first-seen position |
| Tally.RankFrom | backend/collectors/packet_collector.py:283-298 | the ranking of a suffix of entries is a ranked ordering of exactly those indices |
| Tally.TopIndices | backend/collectors/packet_collector.py:283-298 | the top n indices are ranked, and every entry left out is outranked by every entry kept |
| Tally.Top | backend/collectors/packet_collector.py:283-298 | the top n entries are the ranked entries in non-increasing value order |
| Numeric.Max | backend/processors/traffic_analyzer.py:299-300 | the peak is an element of the list and bounds every element |
| Numeric.MeanWithin | backend/processors/traffic_analyzer.py:296-303 | the mean of values within [lo, hi] lies within [lo, hi] |
| Numeric.MeanAtMostMax | backend/processors/traffic_analyzer.py:296-300 | a mean never exceeds the maximum |
| TrafficAnalyzer.Truncate | backend/processors/traffic_analyzer.py:198 | `int()` of a float truncates toward zero |
| TrafficAnalyzer.ToFloat | backend/processors/traffic_analyzer.py:196-200 | a missing field reads as 0.0, numbers convert, and only an invalid value fails |
| TrafficAnalyzer.ToInt | backend/processors/traffic_analyzer.py:198 | a missing field reads as 0, a float is truncated, and only an invalid value fails |
| TrafficAnalyzer.StoredProtocols | backend/processors/traffic_analyzer.py:183-191 | a dictionary or string protocols value is stored as is; a missing or other value is stored as tcp 0, udp 0 |
| TrafficAnalyzer.MetricsRowOf | backend/processors/traffic_analyzer.py:193-202 | the metrics row is built iff every scalar converts; it takes the given id, the timestamp or now, the converted scalars and the stored protocols |
| TrafficAnalyzer.IpRowOf | backend/processors/traffic_analyzer.py:209-217 | an address row is built iff count and latency convert; it carries the metrics id, the address or "unknown", the location and the latency |
| TrafficAnalyzer.PortRowOf | backend/processors/traffic_analyzer.py:241-247 | a port row is built iff port and bytes convert; it carries the metrics id |
| TrafficAnalyzer.IpRowsOf | backend/processors/traffic_analyzer.py:209-238 | at most one row per entry, all with the metrics id, and one per entry when every entry converts |
| TrafficAnalyzer.PortRowsOf | backend/processors/traffic_analyzer.py:240-252 | at most one row per entry, all with the metrics id, and one per entry when every entry converts |
| TrafficAnalyzer.IpRowsOfMembers | backend/processors/traffic_analyzer.py:209-238 | a row is saved iff some entry of the list converts to it |
| TrafficAnalyzer.PortRowsOfMembers | backend/processors/traffic_analyzer.py:240-252 | a row is saved iff some entry of the list converts to it |
| TrafficAnalyzer.IpRowsOfConcat | backend/processors/traffic_analyzer.py:209-238 | the rows of two lists one after the other are the rows of the first, then those of the second, so list order is kept |
| TrafficAnalyzer.PortRowsOfConcat | backend/processors/traffic_analyzer.py:240-252 | the rows of two lists one after the other are the rows of the first, then those of the second, so list order is kept |
| TrafficAnalyzer.MissingFieldsDefault | backend/processors/traffic_analyzer.py:195-216 | an empty snapshot saves as zeros with timestamp now; an empty address entry saves as "unknown" with count 0 and latency 0 |
| TrafficAnalyzer.BadEntrySkipped | backend/processors/traffic_analyzer.py:219-222 | an entry whose count fails to convert is skipped and the next entry is still saved |
| TrafficAnalyzer.LoadProtocols | backend/processors/traffic_analyzer.py:151-156 | a string is JSON-decoded, a decode failure yields tcp 80, udp 20, and a non-string is kept as is |
| TrafficAnalyzer.ProtocolsThroughStore | backend/processors/traffic_analyzer.py:183-191 | saving then loading keeps a dictionary, decodes a string (80/20 on failure) and turns any other value into 0/0 |
| TrafficAnalyzer.IpChildren | backend/database/db_connector.py:169-172 | the child rows of a metrics row number at most the table's rows and all carry its id |
| TrafficAnalyzer.PortChildren | backend/database/db_connector.py:169-172 | the child rows of a metrics row number at most the table's rows and all carry its id |
| TrafficAnalyzer.IpChildrenCounts | backend/database/db_connector.py:169-172 | each row occurs among the children of an id exactly as often as in the table if it carries that id, and not at all otherwise |
| TrafficAnalyzer.PortChildrenCounts | backend/database/db_connector.py:169-172 | each row occurs among the children of an id exactly as often as in the table if it carries that id, and not at all otherwise |
| TrafficAnalyzer.IpChildrenConcat | backend/database/db_connector.py:169-172 | the children in two table segments are those of the first, then those of the second, so table order is kept |
| TrafficAnalyzer.PortChildrenConcat | backend/database/db_connector.py:169-172 | the children in two table segments are those of the first, then those of the second, so table order is kept |
| TrafficAnalyzer.IpChildrenOfAppended | backend/database/db_connector.py:169-172 | rows appended under a fresh id are exactly the children of that id |
| TrafficAnalyzer.PortChildrenOfAppended | backend/database/db_connector.py:169-172 | rows appended under a fresh id are exactly the children of that id |
| TrafficAnalyzer.IpInfos | backend/processors/traffic_analyzer.py:120-140 | one address entry per child row, field by field |
| TrafficAnalyzer.PortInfos | backend/processors/traffic_analyzer.py:142-149 | one port entry per child row, field by field |
| TrafficAnalyzer.RebuildSnapshot | backend/processors/traffic_analyzer.py:158-170 | the rebuilt snapshot copies the row's scalars, loads its protocols and lists the child rows in order |
| TrafficAnalyzer.IpListRoundTrip | backend/processors/traffic_analyzer.py:208-238 | saving an address list whose latencies are known and reading it back gives the same list |
| TrafficAnalyzer.PortListRoundTrip | backend/processors/traffic_analyzer.py:240-252 | saving a port list and reading it back gives the same list |
| TrafficAnalyzer.SaveLoadRoundTrip | backend/processors/traffic_analyzer.py:121-248 | saving a snapshot (dictionary protocols, known latencies) under a fresh id and rebuilding it from the stored rows gives the same snapshot |
| TrafficAnalyzer.UnknownLatencyDropped | backend/processors/traffic_analyzer.py:216 | an address entry with no latency fails `float(None)` and is not saved |
| TrafficAnalyzer.RowsInWindow | backend/processors/traffic_analyzer.py:106-108 | the query keeps exactly the stored rows whose timestamp lies in the window |
| TrafficAnalyzer.RowsInWindowCounts | backend/processors/traffic_analyzer.py:106-108 | each row occurs in the window's rows exactly as often as it is stored if its timestamp lies in the window, and not at all otherwise |
| TrafficAnalyzer.RowsInWindowConcat | backend/processors/traffic_analyzer.py:106-108 | filtering two segments of the table one after the other is filtering each, so table order is kept |
| TrafficAnalyzer.Kept | backend/processors/traffic_analyzer.py:118-174 | skipping failing rows keeps at most the given rows (as a sub-multiset) and keeps ascending timestamp order; with no failures it keeps every row |
| TrafficAnalyzer.KeptCounts | backend/processors/traffic_analyzer.py:118-174 | a row whose conversion raises never survives; every other row survives exactly as often as it occurs |
| TrafficAnalyzer.KeptConcat | backend/processors/traffic_analyzer.py:118-174 | skipping failing rows in two segments one after the other is skipping them in each, so the surviving rows keep their order |
| TrafficAnalyzer.InsertByTime | backend/processors/traffic_analyzer.py:109 | inserting into rows in ascending timestamp order keeps them ordered and adds exactly the new row |
| TrafficAnalyzer.OrderByTimestamp | backend/processors/traffic_analyzer.py:109 | the ordered rows are in ascending timestamp order and are a permutation of the input |
| TrafficAnalyzer.Summarize | backend/processors/traffic_analyzer.py:279-303 | with no snapshots all six fields are 0; otherwise the averages are means and the peaks are attained maxima, so each average is at most its peak |
| TrafficAnalyzer.SummaryWithinBounds | backend/processors/traffic_analyzer.py:296-303 | when every snapshot lies within [lo, hi], so do the mean latency, the mean incoming rate and the peak |
| TrafficAnalyzer.HandleDbError | backend/processors/traffic_analyzer.py:63-78 | a success passes through; a failing network-metrics call yields the current stats, a failing history call yields []; any other call re-raises |
| TrafficAnalyzer.FlushKeepsStoreValid | backend/processors/traffic_analyzer.py:204-206 | appending a row under the next id, with children carrying that id, keeps the metrics ids strictly increasing and every stored id, including the children's, below the next id |
| TrafficAnalyzer.Database.constructor | backend/database/db_connector.py:157-160 | the store starts with empty tables and the first id is 1 |
| TrafficAnalyzer.Database.CollectIpRows | backend/processors/traffic_analyzer.py:208-238 | the loop collects exactly the rows of the entries that convert, in order |
| TrafficAnalyzer.Database.CollectPortRows | backend/processors/traffic_analyzer.py:240-252 | the loop collects exactly the rows of the entries that convert, in order |
| TrafficAnalyzer.Database.SaveMetricsToDb | backend/processors/traffic_analyzer.py:178-265 | save succeeds iff the commit succeeds and the scalars convert; it then appends one metrics row and its converted child rows under the next id; on failure the store is rolled back unchanged |
| TrafficAnalyzer.Database.Flush | backend/processors/traffic_analyzer.py:254-256 | committing appends the metrics row and its child rows and advances the id |
| TrafficAnalyzer.Database.Converted | backend/processors/traffic_analyzer.py:116-174 | one rebuilt snapshot per row that does not fail, in row order |
| TrafficAnalyzer.Database.GetHistoricalMetrics | backend/processors/traffic_analyzer.py:96-176 | a failing query yields [] (the error handler); otherwise the loop yields the conversion of the window's rows in timestamp order |
| TrafficAnalyzer.Database.HistoryIsOrderedAndInWindow | backend/processors/traffic_analyzer.py:106-176 | the history has no more entries than rows in the window, every timestamp lies in the window, and timestamps ascend |
| TrafficAnalyzer.Database.EmptyWindowEmptyHistory | backend/processors/traffic_analyzer.py:111-114 | with no row in the window the history is empty |
| TrafficAnalyzer.Database.AnalyzeTrafficPatterns | backend/processors/traffic_analyzer.py:267-306 | the summary of the window's history (zeros when the query fails), with each average at most its peak |
| TrafficAnalyzer.GetNetworkMetrics | backend/processors/traffic_analyzer.py:80-94 | returns the current stats whether or not saving succeeds; a successful save stores one more row stamped now, and a failed one leaves the rows unchanged |
| Anomaly.Neutral | backend/processors/anomaly_detector.py:117-124 | the neutral answer: no anomaly, score 0.0, no sub-scores, and the error if any |
| Anomaly.TrafficFeatures | backend/processors/anomaly_detector.py:128-132 | the traffic features are incoming, outgoing and active connections |
| Anomaly.LatencyFeatures | backend/processors/anomaly_detector.py:134-137 | the latency features are average latency and packet loss |
| Anomaly.TrafficMatrix | backend/processors/anomaly_detector.py:71-74 | one traffic feature row per snapshot |
| Anomaly.LatencyMatrix | backend/processors/anomaly_detector.py:77-80 | one latency feature row per snapshot |
| Anomaly.FeaturesAgree | backend/processors/anomaly_detector.py:71-80 | training and scoring extract the same features from a snapshot |
| Anomaly.TransformWith | backend/processors/anomaly_detector.py:139-141 | transforming with a scaler that is not fitted fails; a fitted one applies the library's transform |
| Anomaly.PredictWith | backend/processors/anomaly_detector.py:143-145 | predicting with a model that is not fitted fails; a fitted one applies the library's predict |
| Anomaly.ScoreWith | backend/processors/anomaly_detector.py:147-149 | scoring with a model that is not fitted fails; a fitted one applies the library's score_samples |
| Anomaly.First | backend/processors/anomaly_detector.py:151-153 | indexing [0] succeeds iff the result is non-empty, and yields its first element |
| Anomaly.Combine | backend/processors/anomaly_detector.py:151-166 | each detector flags an anomaly iff its prediction is -1; the overall flag is their OR; the score is the minimum of the two sub-scores |
| Anomaly.Score | backend/processors/anomaly_detector.py:126-166 | a successful scoring needs all four estimators fitted, and yields an OR verdict and a score at most both sub-scores |
| Anomaly.ScoreWhenFitted | backend/processors/anomaly_detector.py:126-166 | with fitted estimators whose calls succeed, the verdicts are the two predictions and the sub-scores are the two sample scores |
| Anomaly.ScoreNeedsFittedEstimators | backend/processors/anomaly_detector.py:139-149 | scoring with any estimator missing or unfitted fails |
| Anomaly.AnomalyDetector.constructor | backend/processors/anomaly_detector.py:26-34 | a new detector is trained iff all its model files load, and then holds the loaded estimators |
| Anomaly.AnomalyDetector.LoadModels | backend/processors/anomaly_detector.py:36-50 | with either model file missing nothing changes and the answer is false; otherwise the loads assign in order until one fails, and the answer is true and the detector trained iff all four load |
| Anomaly.AnomalyDetector.Train | backend/processors/anomaly_detector.py:63-113 | empty input changes nothing; otherwise training succeeds iff all library calls succeed, and then both scalers and both forests are replaced by the fitted ones and the detector is trained; on failure the trained flag is unchanged |
| Anomaly.AnomalyDetector.DetectAnomalies | backend/processors/anomaly_detector.py:115-175 | untrained gives the neutral answer; trained gives the scoring result, or the neutral answer with the error when scoring fails; the flag is always the OR of the two, and the score is at most both sub-scores |
| Anomaly.TrainAnomalyModels | backend/processors/anomaly_detector.py:180-202 | the answer is true iff the last week's history is non-empty and training on it succeeds; an empty history leaves the trained flag alone; true implies trained |

## Left out

- Threads, the packet queue, the stop event, the capture callback, `sniff`, and starting or stopping collection are left out. They are concurrency and packet-capture I/O. A drained queue is modelled as a sequence of packets.
- The `mock_data_generator` loop and its sleeps are left out. One burst of 10 to 50 synthetic packets is modelled as `PacketStats.MockBurst`.
- The `random` module and `datetime.now()` are parameters. `get_current_stats` calls `now()` twice; both calls are modelled by one `now`.
- The generators of random addresses and ports are modelled as the range of their draws: octets 1-255, 0-255, 0-255, 1-254, and ports 1-65535.
- The fallback `get_current_stats` that returns fixed data when imports fail is left out. It is import-time plumbing.
- The generic exception handler and the `queue.Empty` branch of `process_packets` are left out. A modelled packet cannot raise.
- The locality test's exception branch is left out. It is unreachable for text addresses.
- Floating point is modelled as mathematical reals. Rounding is not modelled.
- The SQLAlchemy engine, session and ORM are modelled as sequences of rows.
  - The order of rows with equal timestamps is assumed to be insertion order.
  - A relationship lists its children in insertion order.
  - Ids are assigned from 1 upwards.
  - Database failures are the `commitOk`/`queryOk` flags.
- Converting a stored row can raise, which is given as the set `failing` of row ids. JSON decoding is the `parse` function.
- Numeric strings passed to `float()` and `int()` are treated as invalid values. String parsing is not modelled.
- `TrafficAnalyzer.GetNetworkMetrics`: the error handler's fallback for this call is never used, because building the current stats cannot fail. It states only the number of rows and the new row's timestamp; the full contents follow from `SaveMetricsToDb`.
- `PacketCollector.PacketStats.CurrentStats` asks only for distinct keys and samples in range, not the full invariant.
- `PacketCollector.PacketStats.CountMockPacket`: a synthetic packet has no source port, so it is counted as TCP or UDP with source port 0. Only the destination port is used.
- `Anomaly.AnomalyDetector.Train`: when a fit fails after the scalers were replaced, the contract says only that the scalers are set and, if a scaler failed, that the forests are unchanged. It does not pin down every partial state.
- scikit-learn and joblib internals are left out: fitting, transforming, predicting and scoring are opaque function values. `save_models` is left out as file I/O.
- Training at import time, the `__main__` demonstration, and the one-line module-level `detect_anomalies` wrapper are left out.
- A `KeyError` on a missing snapshot key in `train` and `detect_anomalies` is left out. Snapshots are typed records, so every key is present.
- `next(get_db())` is left out: the store is passed in.
- The HTTP routes, the request and response schemas, and the TypeScript front end are left out. They are outside the backend core.
