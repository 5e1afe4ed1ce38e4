/**
 * The process-list monitor: a per-instance rate tracker that turns cumulative CPU times into
 * utilisation percentages, the per-process record format, the aggregate that joins all records of
 * one sample, and the escape / compress / base64 envelope that packages it.
 *
 * Time is in nanoseconds, as Go's `time.Duration`. The clock, `%.2f`, the CPU-time formatter,
 * zlib and base64 are passed in as parameters (`now`, `Formatters`, `Codecs`).
 */
module ProcessList {
  import opened Wrappers
  import opened Strings

  /** Nanoseconds, as Go's `time.Duration`. */
  type Duration = int

  /** Nanoseconds since the Unix epoch, standing for Go's `time.Time`. */
  type Time = int

  type Uint64 = x: int | 0 <= x < 0x1_0000_0000_0000_0000

  /** The wire-format version carried in every envelope. */
  const Version: string := "0.0.30"

  /**
   * A Go `float64` value as far as this monitor can produce one: a finite value, the negative zero
   * (which `%.2f` prints as `-0.00`), or the result of dividing by zero.
   */
  datatype Float = Finite(value: real) | NegZero | PosInf | NegInf | NaN

  /** One process as the platform collector reports it (`TopProcess`). */
  datatype TopProcess = TopProcess(
    processID: int,
    createdTime: Time,
    username: string,
    priority: int,
    nice: string,
    virtualMemoryBytes: Uint64,
    workingSetSizeBytes: Uint64,
    sharedMemBytes: Uint64,
    status: string,
    memPercent: Float,
    totalCPUTime: Duration,
    command: string)

  /** The text renderers the record format uses: `%.2f` of a float, and the `MM:SS.cc` rendering of a CPU time. */
  datatype Formatters = Formatters(fixed2: Float -> string, cpuTime: Duration -> string)

  /** The zlib stream compressor (which may fail) and the standard base64 encoder. */
  datatype Codecs = Codecs(compress: string -> Result<string, string>, base64: string -> string)

  // ---------------------------------------------------------------------------------------------
  // Process identity

  /** The identity of a process across samples: decimal pid, `|`, command line. */
  function Key(p: TopProcess): string {
    FormatInt(p.processID) + "|" + p.command
  }

  /** The key splits back, at its first `|`, into the pid and the whole command (which may itself hold `|`). */
  lemma KeySplits(p: TopProcess)
    ensures var k := Key(p); var i := IndexOf(k, '|');
      0 <= i && ParseInt(k[..i]) == p.processID && k[i + 1..] == p.command
  {
    var d := FormatInt(p.processID);
    IndexAfterDecimal(d, '|', p.command);
    assert Key(p) == d + ['|'] + p.command;
    assert Key(p)[..|d|] == d;
    FormatIntRoundTrip(p.processID);
  }

  /** Two processes share a key exactly when they agree on pid and command. */
  lemma KeyIdentifies(p: TopProcess, q: TopProcess)
    ensures Key(p) == Key(q) <==> p.processID == q.processID && p.command == q.command
  {
    KeySplits(p);
    KeySplits(q);
  }

  // ---------------------------------------------------------------------------------------------
  // Rate tracker

  /**
   * `(float64(delta) / float64(window)) * 100`: 100 times the quotient when the window is not zero,
   * where a zero delta over a negative window is the negative zero; otherwise what IEEE division by
   * zero gives (the Go code does not guard a zero window).
   */
  function CpuPercent(delta: Duration, window: Duration): (f: Float)
    ensures window != 0 ==> (f == NegZero <==> delta == 0 && window < 0)
    ensures window != 0 && f != NegZero ==> f.Finite? && f.value * window as real == 100.0 * delta as real
    ensures window == 0 ==> (f == PosInf <==> delta > 0) && (f == NegInf <==> delta < 0) && (f == NaN <==> delta == 0)
  {
    if window != 0 then
      if delta == 0 && window < 0 then NegZero else Finite(delta as real / window as real * 100.0)
    else if delta > 0 then PosInf
    else if delta < 0 then NegInf
    else NaN
  }

  /** What one sighting of a process yields: its utilisation, and the tracker after the sighting. */
  datatype Observation = Observation(percent: Float, counts: map<string, Duration>)

  /**
   * One sighting of `p` against the tracker `counts`. A known key is measured over the sampling
   * interval against its last count; a new key over its whole lifetime from zero. The tracker then
   * holds `p`'s count under its key, and nothing else changes.
   */
  function Observe(counts: map<string, Duration>, p: TopProcess, sampleInterval: Duration, now: Time): (o: Observation)
    ensures Key(p) in o.counts && o.counts[Key(p)] == p.totalCPUTime
    ensures o.counts.Keys == counts.Keys + {Key(p)}
    ensures forall k :: k in counts && k != Key(p) ==> o.counts[k] == counts[k]
    ensures Key(p) in counts ==> o.percent == CpuPercent(p.totalCPUTime - counts[Key(p)], sampleInterval)
    ensures Key(p) !in counts ==> o.percent == CpuPercent(p.totalCPUTime, now - p.createdTime)
  {
    var key := Key(p);
    var window := if key in counts then sampleInterval else now - p.createdTime;
    var last := if key in counts then counts[key] else 0;
    Observation(CpuPercent(p.totalCPUTime - last, window), counts[key := p.totalCPUTime])
  }

  /** A process seen twice is measured on the second sighting by its CPU time over the interval between them. */
  lemma SecondSighting(counts: map<string, Duration>, p1: TopProcess, p2: TopProcess, interval: Duration, now1: Time, now2: Time)
    requires Key(p1) == Key(p2)
    requires interval != 0
    ensures var o := Observe(Observe(counts, p1, interval, now1).counts, p2, interval, now2);
      (o.percent == NegZero <==> p2.totalCPUTime == p1.totalCPUTime && interval < 0) &&
      (o.percent != NegZero ==> o.percent.Finite? && o.percent.value * interval as real == 100.0 * (p2.totalCPUTime - p1.totalCPUTime) as real)
  {
  }

  /** A first sighting measures the whole CPU time over the process's lifetime. */
  lemma FirstSighting(counts: map<string, Duration>, p: TopProcess, interval: Duration, now: Time)
    requires Key(p) !in counts
    requires now != p.createdTime
    ensures var o := Observe(counts, p, interval, now);
      (o.percent == NegZero <==> p.totalCPUTime == 0 && now < p.createdTime) &&
      (o.percent != NegZero ==> o.percent.Finite? && o.percent.value * (now - p.createdTime) as real == 100.0 * p.totalCPUTime as real)
  {
  }

  // ---------------------------------------------------------------------------------------------
  // Record encoder

  /** A string field of a record, between double quotes (the Go code does not escape it). */
  function Quote(t: string): string {
    "\"" + t + "\""
  }

  /**
   * The record as the Go code's format string spells it:
   * `"<pid>":["user",prio,"nice",vmsKiB,rssKiB,sharedKiB,"status",cpu%,mem%,"time","command"]`.
   */
  function FormatRecord(p: TopProcess, cpuPercent: Float, fmt: Formatters): string {
    "\"" + FormatInt(p.processID) + "\":[" + Quote(p.username) + "," + FormatInt(p.priority) + "," +
    Quote(p.nice) + "," + FormatInt(p.virtualMemoryBytes / 1024) + "," + FormatInt(p.workingSetSizeBytes / 1024) + "," +
    FormatInt(p.sharedMemBytes / 1024) + "," + Quote(p.status) + "," + fmt.fixed2(cpuPercent) + "," +
    fmt.fixed2(p.memPercent) + "," + Quote(fmt.cpuTime(p.totalCPUTime)) + "," + Quote(p.command) + "]"
  }

  /** A field of a record: a quoted string or a bare number. */
  datatype Field = Quoted(text: string) | Bare(text: string)

  function RenderField(f: Field): string {
    match f
    case Quoted(t) => Quote(t)
    case Bare(t) => t
  }

  function RenderFields(fs: seq<Field>): (r: seq<string>)
    ensures |r| == |fs|
    ensures forall i :: 0 <= i < |fs| ==> r[i] == RenderField(fs[i])
  {
    if fs == [] then [] else [RenderField(fs[0])] + RenderFields(fs[1..])
  }

  /**
   * The record's value fields in wire order; the three memory sizes are in KiB, truncated.
   */
  function RecordFields(p: TopProcess, cpuPercent: Float, fmt: Formatters): seq<Field> {
    [ Quoted(p.username),
      Bare(FormatInt(p.priority)),
      Quoted(p.nice),
      Bare(FormatInt(p.virtualMemoryBytes / 1024)),
      Bare(FormatInt(p.workingSetSizeBytes / 1024)),
      Bare(FormatInt(p.sharedMemBytes / 1024)),
      Quoted(p.status),
      Bare(fmt.fixed2(cpuPercent)),
      Bare(fmt.fixed2(p.memPercent)),
      Quoted(fmt.cpuTime(p.totalCPUTime)),
      Quoted(p.command) ]
  }

  /** One process's record: its quoted pid as the key, then its fields in wire order, comma separated, in brackets. */
  function EncodeRecord(p: TopProcess, cpuPercent: Float, fmt: Formatters): string {
    "\"" + FormatInt(p.processID) + "\":[" + Join(RenderFields(RecordFields(p, cpuPercent, fmt)), ",") + "]"
  }

  /** Extending a joined prefix by one part, with a fixed text in front. */
  lemma JoinPrefixStep(head: string, parts: seq<string>, k: nat)
    requires 1 <= k < |parts|
    ensures head + Join(parts[..k + 1], ",") == head + Join(parts[..k], ",") + "," + parts[k]
  {
    assert parts[..k + 1] == parts[..k] + [parts[k]];
    JoinSnoc(parts[..k], parts[k], ",");
  }

  /** Eleven parts joined by commas, spelled out, behind a fixed text. */
  lemma JoinEleven(head: string, rs: seq<string>)
    requires |rs| == 11
    ensures head + Join(rs, ",") == head + rs[0] + "," + rs[1] + "," + rs[2] + "," + rs[3] + "," + rs[4] + "," +
      rs[5] + "," + rs[6] + "," + rs[7] + "," + rs[8] + "," + rs[9] + "," + rs[10]
  {
    assert Join(rs[..1], ",") == rs[0];
    JoinPrefixStep(head, rs, 1);
    JoinPrefixStep(head, rs, 2);
    JoinPrefixStep(head, rs, 3);
    JoinPrefixStep(head, rs, 4);
    JoinPrefixStep(head, rs, 5);
    JoinPrefixStep(head, rs, 6);
    JoinPrefixStep(head, rs, 7);
    JoinPrefixStep(head, rs, 8);
    JoinPrefixStep(head, rs, 9);
    JoinPrefixStep(head, rs, 10);
    assert rs[..11] == rs;
  }

  /** The Go code's format string produces exactly the keyed field list. */
  lemma RecordLayout(p: TopProcess, cpuPercent: Float, fmt: Formatters)
    ensures FormatRecord(p, cpuPercent, fmt) == EncodeRecord(p, cpuPercent, fmt)
  {
    var rs := RenderFields(RecordFields(p, cpuPercent, fmt));
    JoinEleven("\"" + FormatInt(p.processID) + "\":[", rs);
  }

  /** Reads the pid key back from the front of a record: the number between the first two quotes. */
  function RecordPid(record: string): Option<int> {
    if |record| == 0 || record[0] != '"' then None
    else
      var i := IndexOf(record[1..], '"');
      if i < 0 then None else Some(ParseInt(record[1..][..i]))
  }

  /** Every record is keyed by its process's pid, whatever the other fields hold. */
  lemma RecordPidRoundTrip(p: TopProcess, cpuPercent: Float, fmt: Formatters)
    ensures RecordPid(EncodeRecord(p, cpuPercent, fmt)) == Some(p.processID)
  {
    var d := FormatInt(p.processID);
    var rec := EncodeRecord(p, cpuPercent, fmt);
    var rest := rec[|d| + 2..];
    assert rec == "\"" + d + "\"" + rest;
    assert rec[1..] == d + ['"'] + rest;
    IndexAfterDecimal(d, '"', rest);
    assert rec[1..][..|d|] == d;
    FormatIntRoundTrip(p.processID);
  }

  // ---------------------------------------------------------------------------------------------
  // One sample: every process observed in order

  /** The utilisation of each process of a sample, in input order, and the tracker once all have been observed. */
  datatype Sample = Sample(percents: seq<Float>, counts: map<string, Duration>)

  /** The keys of a sample's processes. */
  function KeysOf(procs: seq<TopProcess>): set<string> {
    if procs == [] then {} else KeysOf(procs[..|procs| - 1]) + {Key(procs[|procs| - 1])}
  }

  /** The processes observed one after another, each against the tracker its predecessors left. */
  function ObserveAll(counts: map<string, Duration>, procs: seq<TopProcess>, sampleInterval: Duration, now: Time): (s: Sample)
    ensures |s.percents| == |procs|
    decreases |procs|
  {
    if procs == [] then Sample([], counts)
    else
      var prev := ObserveAll(counts, procs[..|procs| - 1], sampleInterval, now);
      var o := Observe(prev.counts, procs[|procs| - 1], sampleInterval, now);
      Sample(prev.percents + [o.percent], o.counts)
  }

  /** The last process in a sample with a given key. */
  ghost predicate LastWithKey(procs: seq<TopProcess>, i: int) {
    0 <= i < |procs| && forall j :: i < j < |procs| ==> Key(procs[j]) != Key(procs[i])
  }

  /** A sighting leaves the tracker's entry for any other key as it was. */
  lemma ObserveKeepsEntry(counts: map<string, Duration>, p: TopProcess, sampleInterval: Duration, now: Time, k: string)
    requires k in counts && k != Key(p)
    ensures var o := Observe(counts, p, sampleInterval, now); k in o.counts && o.counts[k] == counts[k]
  {
  }

  /** After a sample the tracker holds, for every key in the sample, the CPU time of the last process with that key. */
  lemma {:induction false} ObserveAllLastWins(counts: map<string, Duration>, procs: seq<TopProcess>, sampleInterval: Duration, now: Time, i: int)
    requires LastWithKey(procs, i)
    ensures var s := ObserveAll(counts, procs, sampleInterval, now);
      Key(procs[i]) in s.counts && s.counts[Key(procs[i])] == procs[i].totalCPUTime
    decreases |procs|
  {
    var n := |procs|;
    var init := procs[..n - 1];
    var prev := ObserveAll(counts, init, sampleInterval, now);
    if i < n - 1 {
      assert init[i] == procs[i];
      assert LastWithKey(init, i) by {
        assert forall j :: i < j < n - 1 ==> init[j] == procs[j];
      }
      ObserveAllLastWins(counts, init, sampleInterval, now, i);
      ObserveKeepsEntry(prev.counts, procs[n - 1], sampleInterval, now, Key(procs[i]));
    } else {
      assert procs[i] == procs[n - 1];
    }
  }

  /** The tracker only ever gains keys, and a sample adds exactly its processes' keys. */
  lemma {:induction false} ObserveAllKeys(counts: map<string, Duration>, procs: seq<TopProcess>, sampleInterval: Duration, now: Time)
    ensures ObserveAll(counts, procs, sampleInterval, now).counts.Keys == counts.Keys + KeysOf(procs)
    decreases |procs|
  {
    if procs != [] {
      ObserveAllKeys(counts, procs[..|procs| - 1], sampleInterval, now);
    }
  }

  /** A sample leaves the tracker's entries for keys outside the sample as they were. */
  lemma {:induction false} ObserveAllKeepsOthers(counts: map<string, Duration>, procs: seq<TopProcess>, sampleInterval: Duration, now: Time, k: string)
    requires k in counts && k !in KeysOf(procs)
    ensures var s := ObserveAll(counts, procs, sampleInterval, now); k in s.counts && s.counts[k] == counts[k]
    decreases |procs|
  {
    if procs != [] {
      ObserveAllKeepsOthers(counts, procs[..|procs| - 1], sampleInterval, now, k);
    }
  }

  /** A sighting's utilisation depends on the tracker only through the entry for the process's own key. */
  lemma ObserveDependsOnOwnKey(c1: map<string, Duration>, c2: map<string, Duration>, p: TopProcess, sampleInterval: Duration, now: Time)
    requires Key(p) in c1 <==> Key(p) in c2
    requires Key(p) in c1 ==> c1[Key(p)] == c2[Key(p)]
    ensures Observe(c1, p, sampleInterval, now).percent == Observe(c2, p, sampleInterval, now).percent
  {
  }

  /** Process `i` of a sample is measured against the tracker that the processes before it left. */
  lemma {:induction false} ObserveAllPercentAt(counts: map<string, Duration>, procs: seq<TopProcess>, sampleInterval: Duration, now: Time, i: int)
    requires 0 <= i < |procs|
    ensures ObserveAll(counts, procs, sampleInterval, now).percents[i]
      == Observe(ObserveAll(counts, procs[..i], sampleInterval, now).counts, procs[i], sampleInterval, now).percent
    decreases |procs|
  {
    var n := |procs|;
    var init := procs[..n - 1];
    var prev := ObserveAll(counts, init, sampleInterval, now);
    var whole := ObserveAll(counts, procs, sampleInterval, now);
    if i < n - 1 {
      assert whole.percents[i] == prev.percents[i] by {
        assert whole.percents[..n - 1] == prev.percents;
      }
      assert init[..i] == procs[..i] && init[i] == procs[i];
      ObserveAllPercentAt(counts, init, sampleInterval, now, i);
    } else {
      assert procs[..i] == init;
    }
  }

  /** Every process of a sample contributes its key to the sample's key set. */
  lemma {:induction false} KeysOfHas(procs: seq<TopProcess>, j: int)
    requires 0 <= j < |procs|
    ensures Key(procs[j]) in KeysOf(procs)
    decreases |procs|
  {
    var n := |procs|;
    if j < n - 1 {
      assert procs[..n - 1][j] == procs[j];
      KeysOfHas(procs[..n - 1], j);
    }
  }

  /** A key that no process of a sample has is not in the sample's key set. */
  lemma {:induction false} KeysOfAbsent(procs: seq<TopProcess>, k: string)
    requires forall j :: 0 <= j < |procs| ==> Key(procs[j]) != k
    ensures k !in KeysOf(procs)
    decreases |procs|
  {
    if procs != [] {
      var n := |procs|;
      assert forall j :: 0 <= j < n - 1 ==> procs[..n - 1][j] == procs[j];
      KeysOfAbsent(procs[..n - 1], k);
    }
  }

  /** No two processes of a sample share a key, as when every pid occurs once. */
  predicate DistinctKeys(procs: seq<TopProcess>) {
    forall j, k :: 0 <= j < k < |procs| ==> Key(procs[j]) != Key(procs[k])
  }

  /**
   * In a sample whose keys are distinct, each process is measured exactly as if it were observed
   * alone against the tracker the previous sample left.
   */
  lemma SamplePercentAt(counts: map<string, Duration>, procs: seq<TopProcess>, sampleInterval: Duration, now: Time, i: int)
    requires DistinctKeys(procs)
    requires 0 <= i < |procs|
    ensures ObserveAll(counts, procs, sampleInterval, now).percents[i] == Observe(counts, procs[i], sampleInterval, now).percent
  {
    var p := procs[i];
    var before := ObserveAll(counts, procs[..i], sampleInterval, now);
    ObserveAllPercentAt(counts, procs, sampleInterval, now, i);
    ObserveAllKeys(counts, procs[..i], sampleInterval, now);
    assert forall j :: 0 <= j < i ==> Key(procs[..i][j]) != Key(p);
    KeysOfAbsent(procs[..i], Key(p));
    if Key(p) in counts {
      ObserveAllKeepsOthers(counts, procs[..i], sampleInterval, now, Key(p));
    }
    ObserveDependsOnOwnKey(before.counts, counts, p, sampleInterval, now);
  }

  /** Each process's record with its utilisation, in input order. */
  function Records(procs: seq<TopProcess>, percents: seq<Float>, fmt: Formatters): (rs: seq<string>)
    requires |percents| == |procs|
    ensures |rs| == |procs|
  {
    if procs == [] then []
    else Records(procs[..|procs| - 1], percents[..|procs| - 1], fmt) + [EncodeRecord(procs[|procs| - 1], percents[|procs| - 1], fmt)]
  }

  /** Record `i` of a sample is process `i`'s record with utilisation `i`. */
  lemma {:induction false} RecordsAt(procs: seq<TopProcess>, percents: seq<Float>, fmt: Formatters, i: int)
    requires |percents| == |procs|
    requires 0 <= i < |procs|
    ensures Records(procs, percents, fmt)[i] == EncodeRecord(procs[i], percents[i], fmt)
    decreases |procs|
  {
    var n := |procs|;
    if i < n - 1 {
      assert procs[..n - 1][i] == procs[i] && percents[..n - 1][i] == percents[i];
      RecordsAt(procs[..n - 1], percents[..n - 1], fmt, i);
    }
  }

  /** The records of a sample come in input order: record `i` is keyed by the pid of process `i`. */
  lemma RecordsInOrder(procs: seq<TopProcess>, percents: seq<Float>, fmt: Formatters, i: int)
    requires |percents| == |procs|
    requires 0 <= i < |procs|
    ensures RecordPid(Records(procs, percents, fmt)[i]) == Some(procs[i].processID)
  {
    RecordsAt(procs, percents, fmt, i);
    RecordPidRoundTrip(procs[i], percents[i], fmt);
  }

  /**
   * The record the monitor emits for process `i` of a sample with distinct keys carries that
   * process's utilisation against the tracker the previous sample left.
   */
  lemma EmittedRecord(counts: map<string, Duration>, procs: seq<TopProcess>, sampleInterval: Duration, now: Time, fmt: Formatters, i: int)
    requires DistinctKeys(procs)
    requires 0 <= i < |procs|
    ensures var s := ObserveAll(counts, procs, sampleInterval, now);
      Records(procs, s.percents, fmt)[i] == EncodeRecord(procs[i], Observe(counts, procs[i], sampleInterval, now).percent, fmt)
  {
    var s := ObserveAll(counts, procs, sampleInterval, now);
    RecordsAt(procs, s.percents, fmt, i);
    SamplePercentAt(counts, procs, sampleInterval, now, i);
  }

  /** Observing one more process of a sample extends the tracker and the record list by that process. */
  lemma ObserveNext(counts: map<string, Duration>, procs: seq<TopProcess>, i: int, sampleInterval: Duration, now: Time, fmt: Formatters)
    requires 0 <= i < |procs|
    ensures var before := ObserveAll(counts, procs[..i], sampleInterval, now);
      var after := ObserveAll(counts, procs[..i + 1], sampleInterval, now);
      var o := Observe(before.counts, procs[i], sampleInterval, now);
      after.counts == o.counts &&
      Records(procs[..i + 1], after.percents, fmt) == Records(procs[..i], before.percents, fmt) + [EncodeRecord(procs[i], o.percent, fmt)]
  {
    var before := ObserveAll(counts, procs[..i], sampleInterval, now);
    var after := ObserveAll(counts, procs[..i + 1], sampleInterval, now);
    assert procs[..i + 1][..i] == procs[..i];
    assert after.percents[..i] == before.percents;
  }

  // ---------------------------------------------------------------------------------------------
  // Aggregate and packager

  /** All records of a sample, comma separated, between braces. */
  function Aggregate(records: seq<string>): (a: string)
    ensures |a| >= 2 && a[0] == '{' && a[|a| - 1] == '}'
  {
    "{" + Join(records, ",") + "}"
  }

  /** Appending `record,` per process and overwriting the final comma with `}` yields the aggregate. */
  lemma {:induction false} OverwriteLastComma(records: seq<string>)
    requires records != []
    ensures var built := "{" + Terminated(records, ",");
      |built| >= 2 && built[|built| - 1 := '}'] == Aggregate(records)
  {
    TerminatedIsJoinPlusSep(records, ",");
  }

  /** The escape step: every backslash doubled, every other byte kept, across the whole text. */
  function Escape(s: string): (r: string)
    ensures |r| >= |s|
  {
    if s == [] then [] else (if s[0] == '\\' then "\\\\" else [s[0]]) + Escape(s[1..])
  }

  /** Escaping works character by character, so it distributes over concatenation. */
  lemma {:induction false} EscapeConcat(a: string, b: string)
    ensures Escape(a + b) == Escape(a) + Escape(b)
    decreases |a|
  {
    if a != [] {
      assert (a + b)[0] == a[0] && (a + b)[1..] == a[1..] + b;
      EscapeConcat(a[1..], b);
    } else {
      assert a + b == b;
    }
  }

  /** Text without a backslash passes through unchanged. */
  lemma {:induction false} EscapeLeavesPlainText(s: string)
    requires '\\' !in s
    ensures Escape(s) == s
    decreases |s|
  {
    if s != [] {
      assert s[0] != '\\';
      EscapeLeavesPlainText(s[1..]);
    }
  }

  /** What a reader of the payload does: halves each doubled backslash. */
  function Unescape(s: string): string
    decreases |s|
  {
    if s == [] then []
    else if |s| >= 2 && s[0] == '\\' && s[1] == '\\' then "\\" + Unescape(s[2..])
    else [s[0]] + Unescape(s[1..])
  }

  /** Escaping loses nothing: halving the doubled backslashes gives the original bytes back. */
  lemma {:induction false} EscapeRoundTrip(s: string)
    ensures Unescape(Escape(s)) == s
  {
    if s != [] {
      EscapeRoundTrip(s[1..]);
      var e := Escape(s);
      if s[0] == '\\' {
        assert e[2..] == Escape(s[1..]);
      } else {
        assert e[1..] == Escape(s[1..]);
      }
    }
  }

  /** Every backslash of `e` has a backslash right beside it. */
  predicate NoLoneBackslash(e: string) {
    forall i {:trigger e[i]} :: 0 <= i < |e| && e[i] == '\\' ==> (i + 1 < |e| && e[i + 1] == '\\') || (i > 0 && e[i - 1] == '\\')
  }

  /** After escaping, no backslash stands alone. */
  lemma {:induction false} EscapeLeavesNoLoneBackslash(s: string)
    ensures NoLoneBackslash(Escape(s))
  {
    if s != [] {
      EscapeLeavesNoLoneBackslash(s[1..]);
      var e := Escape(s);
      var t := Escape(s[1..]);
      var h := |e| - |t|;
      assert e == (if s[0] == '\\' then "\\\\" else [s[0]]) + t;
      forall i {:trigger e[i]} | 0 <= i < |e| && e[i] == '\\'
        ensures (i + 1 < |e| && e[i + 1] == '\\') || (i > 0 && e[i - 1] == '\\')
      {
        if i >= h {
          var j := i - h;
          assert t[j] == '\\';
          assert (j + 1 < |t| && t[j + 1] == '\\') || (j > 0 && t[j - 1] == '\\');
          assert j + 1 < |t| ==> e[i + 1] == t[j + 1];
          assert j > 0 ==> e[i - 1] == t[j - 1];
        } else {
          assert s[0] == '\\' && e[0] == '\\' && e[1] == '\\';
        }
      }
      assert NoLoneBackslash(e);
    }
  }

  /** The text before and after the payload of an envelope `{"t":"<payload>","v":"0.0.30"}`. */
  const EnvelopeHead: string := "{\"t\":\""
  const EnvelopeTail: string := "\",\"v\":\"" + Version + "\"}"

  /** The envelope around a base64 payload, stamped with the wire-format version. */
  function Envelope(payload: string): (e: string)
    ensures |e| == |EnvelopeHead| + |payload| + |EnvelopeTail|
    ensures e[..|EnvelopeHead|] == EnvelopeHead && e[|e| - |EnvelopeTail|..] == EnvelopeTail
    ensures e[|EnvelopeHead|..|e| - |EnvelopeTail|] == payload
  {
    EnvelopeHead + payload + EnvelopeTail
  }

  /** A reader's view of an envelope: the `t` payload, when the text has the envelope's shape. */
  function EnvelopePayload(env: string): Option<string> {
    if |env| >= |EnvelopeHead| + |EnvelopeTail| && env[..|EnvelopeHead|] == EnvelopeHead
       && env[|env| - |EnvelopeTail|..] == EnvelopeTail
    then Some(env[|EnvelopeHead|..|env| - |EnvelopeTail|])
    else None
  }

  /** The payload placed in an envelope is exactly what a reader takes out of it. */
  lemma EnvelopeRoundTrip(payload: string)
    ensures EnvelopePayload(Envelope(payload)) == Some(payload)
  {
    var env := Envelope(payload);
    assert env[..|EnvelopeHead|] == EnvelopeHead;
    assert env[|env| - |EnvelopeTail|..] == EnvelopeTail;
    assert env[|EnvelopeHead|..|env| - |EnvelopeTail|] == payload;
  }

  /**
   * Escape, compress, base64, wrap. A compression failure is reported with the compressor's message;
   * otherwise the envelope carries the base64 text of the compressed, escaped aggregate.
   */
  function Package(aggregate: string, codecs: Codecs): (r: Result<string, string>)
    ensures codecs.compress(Escape(aggregate)).Failure? ==>
      r == Failure("couldn't compress process list: " + codecs.compress(Escape(aggregate)).error)
    ensures codecs.compress(Escape(aggregate)).Success? ==>
      r.Success? && EnvelopePayload(r.value) == Some(codecs.base64(codecs.compress(Escape(aggregate)).value))
  {
    var compressed := codecs.compress(Escape(aggregate));
    if compressed.Failure? then Failure("couldn't compress process list: " + compressed.error)
    else
      var t := codecs.base64(compressed.value);
      EnvelopeRoundTrip(t);
      Success(Envelope(t))
  }

  /**
   * A reader holding the inverses of the compressor and of base64 recovers the aggregate exactly
   * from a packaged envelope: take out `t`, decode, decompress, unescape.
   */
  lemma ReaderRecoversAggregate(aggregate: string, codecs: Codecs, decode64: string -> string, inflate: string -> string)
    requires forall b :: decode64(codecs.base64(b)) == b
    requires forall b :: codecs.compress(b).Success? ==> inflate(codecs.compress(b).value) == b
    requires Package(aggregate, codecs).Success?
    ensures var env := Package(aggregate, codecs).value;
      EnvelopePayload(env).Some? && Unescape(inflate(decode64(EnvelopePayload(env).value))) == aggregate
  {
    EscapeRoundTrip(aggregate);
  }

  // ---------------------------------------------------------------------------------------------
  // Worked examples

  const Second: Duration := 1_000_000_000

  /** A first sighting 10 s after creation with 65.5 s of CPU time reads 655 %. */
  lemma FirstSightingExample(p: TopProcess, interval: Duration, now: Time)
    requires p.processID == 100 && p.command == "sleep 100"
    requires p.totalCPUTime == 65_500_000_000 && p.createdTime == now - 10 * Second
    ensures Observe(map[], p, interval, now).percent == Finite(655.0)
  {
  }

  /** The same process 30 s later with 75.5 s of CPU time reads 10 s over 30 s, one third of 100 %. */
  lemma SecondSightingExample(p1: TopProcess, p2: TopProcess, now: Time)
    requires p1.processID == p2.processID == 100 && p1.command == p2.command == "sleep 100"
    requires p1.totalCPUTime == 65_500_000_000 && p1.createdTime == now - 10 * Second
    requires p2.totalCPUTime == 75_500_000_000
    ensures Observe(Observe(map[], p1, 30 * Second, now).counts, p2, 30 * Second, now + 30 * Second).percent
      == Finite(100.0 / 3.0)
  {
  }

  /** A Windows path such as `C:\app.exe` reaches the compressor with its one backslash doubled. */
  lemma EscapeWindowsPath(drive: string, file: string)
    requires '\\' !in drive && '\\' !in file
    ensures Escape(drive + "\\" + file) == drive + "\\\\" + file
  {
    EscapeConcat(drive + "\\", file);
    EscapeConcat(drive, "\\");
    EscapeLeavesPlainText(drive);
    EscapeLeavesPlainText(file);
    assert Escape("\\") == "\\\\" + Escape([]);
  }

  // ---------------------------------------------------------------------------------------------
  // The monitor

  /** A process-list monitor instance; it owns its rate tracker. */
  class Monitor {
    /** The last cumulative CPU time seen for each process key. Entries are never removed. */
    var lastCPUCounts: map<string, Duration>

    constructor ()
      ensures lastCPUCounts == map[]
    {
      lastCPUCounts := map[];
    }

    /** Observes one process, records its CPU time in the tracker and renders its record. */
    method EncodeProcess(p: TopProcess, sampleInterval: Duration, now: Time, fmt: Formatters) returns (record: string)
      modifies this
      ensures var o := Observe(old(lastCPUCounts), p, sampleInterval, now);
        lastCPUCounts == o.counts && record == EncodeRecord(p, o.percent, fmt)
    {
      var key := Key(p);
      var lastSampleInterval := sampleInterval;
      var lastCPUCount := 0;
      if key in lastCPUCounts {
        lastCPUCount := lastCPUCounts[key];
      } else {
        lastSampleInterval := now - p.createdTime;
      }
      lastCPUCounts := lastCPUCounts[key := p.totalCPUTime];
      var cpuPercent := CpuPercent(p.totalCPUTime - lastCPUCount, lastSampleInterval);
      assert cpuPercent == Observe(old(lastCPUCounts), p, sampleInterval, now).percent;
      record := FormatRecord(p, cpuPercent, fmt);
      RecordLayout(p, cpuPercent, fmt);
    }

    /**
     * Encodes one sample into an envelope. An empty sample fails and leaves the tracker alone.
     * Otherwise every process is observed in order, and the tracker keeps those observations
     * whether or not compression then fails.
     */
    method EncodeEventMessage(procs: seq<TopProcess>, sampleInterval: Duration, now: Time, fmt: Formatters, codecs: Codecs)
      returns (r: Result<string, string>)
      modifies this
      ensures procs == [] ==> r == Failure("no processes to encode") && lastCPUCounts == old(lastCPUCounts)
      ensures procs != [] ==> var s := ObserveAll(old(lastCPUCounts), procs, sampleInterval, now);
        lastCPUCounts == s.counts && r == Package(Aggregate(Records(procs, s.percents, fmt)), codecs)
    {
      if |procs| == 0 {
        return Failure("no processes to encode");
      }
      var procsEncoded: string := "{";
      for i := 0 to |procs|
        invariant var s := ObserveAll(old(lastCPUCounts), procs[..i], sampleInterval, now);
          lastCPUCounts == s.counts && procsEncoded == "{" + Terminated(Records(procs[..i], s.percents, fmt), ",")
      {
        ghost var before := ObserveAll(old(lastCPUCounts), procs[..i], sampleInterval, now);
        ObserveNext(old(lastCPUCounts), procs, i, sampleInterval, now, fmt);
        var record := EncodeProcess(procs[i], sampleInterval, now, fmt);
        TerminatedSnoc("{", Records(procs[..i], before.percents, fmt), record, ",");
        procsEncoded := procsEncoded + record + ",";
      }
      assert procs[..|procs|] == procs;
      ghost var records := Records(procs, ObserveAll(old(lastCPUCounts), procs, sampleInterval, now).percents, fmt);
      OverwriteLastComma(records);
      procsEncoded := procsEncoded[|procsEncoded| - 1 := '}'];
      r := Package(procsEncoded, codecs);
    }
  }

  /**
   * A sample of two processes whose compression fails: no envelope, yet a fresh monitor's tracker
   * already holds both processes' CPU times.
   */
  method CompressionFailureKeepsTracker(p1: TopProcess, p2: TopProcess, interval: Duration, now: Time, fmt: Formatters, codecs: Codecs)
    returns (r: Result<string, string>, tracker: map<string, Duration>)
    requires Key(p1) != Key(p2)
    requires forall b :: codecs.compress(b).Failure?
    ensures r.Failure?
    ensures tracker == map[Key(p1) := p1.totalCPUTime, Key(p2) := p2.totalCPUTime]
  {
    var m := new Monitor();
    r := m.EncodeEventMessage([p1, p2], interval, now, fmt, codecs);
    tracker := m.lastCPUCounts;
    assert [p1, p2][..1] == [p1];
    assert [p1][..0] == [];
    assert ObserveAll(map[], [], interval, now) == Sample([], map[]);
    var first := ObserveAll(map[], [p1], interval, now);
    assert first.counts == Observe(map[], p1, interval, now).counts;
    assert first.counts == map[Key(p1) := p1.totalCPUTime];
    var second := Observe(first.counts, p2, interval, now);
    assert ObserveAll(map[], [p1, p2], interval, now).counts == second.counts;
    assert second.counts.Keys == {Key(p1), Key(p2)};
    assert second.counts[Key(p1)] == p1.totalCPUTime;
  }
}
