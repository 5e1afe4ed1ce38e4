# Process-list monitor and ECS dimensions

This project models two parts of the SignalFx Smart Agent in Dafny.

**The process-list monitor.** Each interval the agent takes a sample of the host's processes. For
each process the monitor:
- works out its CPU utilisation from the change in cumulative CPU time since the last sample;
- writes one record keyed by its pid;
- joins the records into one JSON-like aggregate `{...}`.

The aggregate is then escaped (backslashes doubled), zlib-compressed, base64-encoded and wrapped in
the envelope `{"t":"<payload>","v":"0.0.30"}`. The monitor instance owns a rate tracker, a map
from process key (`<pid>|<command>`) to the last cumulative CPU time seen. A process seen for the
first time is measured over its whole lifetime. A process seen again is measured over the sample
interval.

**ECS task dimensions.** The task's dimensions are derived from its metadata. The cluster is named
by the text after the first `/` of the cluster field, or by the whole field when it has no `/`.

Files:
- `wrappers.dfy`: `Option` and `Result`.
- `strings.dfy`: the byte-string operations the Go code relies on. These are `strings.Index` of one
  character, decimal `%d` rendering, join, and terminated join, plus a decimal parse, used to state
  that the rendering can be read back.
- `processlist.dfy`: module `ProcessList` and class `ProcessList.Monitor`. The tracker is the
  class's `lastCPUCounts` field. `EncodeProcess` and `EncodeEventMessage` change it in place and are
  proved against the specification functions `Observe`, `ObserveAll`, `Records`, `Aggregate` and
  `Package`.
- `ecs.dfy`: module `Ecs`.

Times and durations are integers of nanoseconds. Go `float64` results are a `Float` datatype that
is finite, the negative zero, or one of ±Inf/NaN. Go strings are Dafny strings with one character per byte.

The following are parameters, not definitions: the clock (`now`), `%.2f`, the CPU-time formatter
`toTime`, zlib and base64. What the model proves holds for any such functions. Where a property
needs them to be invertible, the lemma says so in its `requires`.

The utilisation division in `encodeProcess` is not guarded against a zero window. Go float division by zero gives +Inf, -Inf or NaN, and that is what
`CpuPercent` models. A zero CPU delta over a negative window (a creation time ahead of the clock)
gives Go's negative zero, which `%.2f` prints as `-0.00`; the model keeps it apart from 0.

## Model

| member | source | states |
|---|---|---|
| Strings.IndexOf | internal/core/common/ecs/ecs.go:18 | `strings.Index` of one byte: -1 exactly when absent, otherwise the position of the first occurrence |
| Strings.FormatInt | internal/monitors/processlist/processlist.go:77 | the `%d` rendering is at least one character long, all of them digits or a minus sign |
| Strings.FormatIntRoundTrip | internal/monitors/processlist/processlist.go:77 | the `%d` rendering of an integer parses back to the same integer |
| Strings.FormatIntInjective | internal/monitors/processlist/processlist.go:77 | two integers have the same `%d` rendering if and only if they are equal |
| Strings.JoinSnoc | internal/monitors/processlist/processlist.go:125-127 | joining one more part appends the separator and that part |
| Strings.Terminated | internal/monitors/processlist/processlist.go:124-126 | (definition, no ensures) the `procsEncoded` buffer without its leading brace: every part followed by the separator, in order |
| Strings.TerminatedIsJoinPlusSep | internal/monitors/processlist/processlist.go:124-128 | writing each part followed by a comma equals the comma-join plus one trailing comma |
| Strings.TerminatedSnoc | internal/monitors/processlist/processlist.go:126 | appending `record,` to the buffer extends the terminated list by that record |
| ProcessList.Key | internal/monitors/processlist/processlist.go:75-78 | (definition, no ensures) decimal pid, then `\|`, then the command; its contract is `KeySplits` and `KeyIdentifies` |
| ProcessList.KeySplits | internal/monitors/processlist/processlist.go:75-78 | the key splits at its first `\|` into the decimal pid and the whole command, even when the command holds `\|` |
| ProcessList.KeyIdentifies | internal/monitors/processlist/processlist.go:75-78 | two processes have the same key if and only if they have the same pid and the same command |
| ProcessList.CpuPercent | internal/monitors/processlist/processlist.go:151 | utilisation is 100 × delta / window for a non-zero window, except that a zero delta over a negative window is the negative zero (and only then); for a zero window it is +Inf, -Inf or NaN by the sign of delta |
| ProcessList.Observe | internal/monitors/processlist/processlist.go:142-151 | the tracker gains or overwrites the process's key with its CPU time and keeps every other key; a known key is measured against its last count over the interval, a new one against zero over its lifetime |
| ProcessList.SecondSighting | internal/monitors/processlist/processlist.go:144-151 | a process seen again is measured by the difference of its two CPU times over the sample interval (the negative zero exactly when the difference is zero and the interval negative) |
| ProcessList.FirstSighting | internal/monitors/processlist/processlist.go:146-151 | a process seen for the first time is measured by its whole CPU time over now minus its creation time (the negative zero exactly when that CPU time is zero and the creation time is ahead of now) |
| ProcessList.FirstSightingExample | internal/monitors/processlist/processlist.go:146-151 | 65.5 s of CPU time 10 s after creation reads 655% |
| ProcessList.SecondSightingExample | internal/monitors/processlist/processlist.go:144-151 | 10 more seconds of CPU time over a 30 s interval read one third of 100% |
| ProcessList.FormatRecord | internal/monitors/processlist/processlist.go:153-166 | (definition, no ensures) the record exactly as the format string spells it; `RecordLayout` proves it equals `EncodeRecord` |
| ProcessList.RecordFields | internal/monitors/processlist/processlist.go:154-165 | (definition, no ensures) the eleven value fields in wire order: user, priority, nice, VMS, RSS and shared memory in KiB (truncating `/1024`), status, CPU %, memory %, CPU time, command; strings quoted, numbers bare |
| ProcessList.EncodeRecord | internal/monitors/processlist/processlist.go:153-166 | (definition, no ensures) the quoted pid, `:[`, the rendered fields joined by commas, `]`; `RecordLayout` equates it with the format string and `RecordPidRoundTrip` reads the pid back |
| ProcessList.RenderFields | internal/monitors/processlist/processlist.go:153 | rendering keeps the number and order of fields, quoting exactly the string fields |
| ProcessList.RecordLayout | internal/monitors/processlist/processlist.go:153-166 | the record's format string yields the quoted pid key and then the eleven fields in wire order, comma separated, in brackets |
| ProcessList.RecordPidRoundTrip | internal/monitors/processlist/processlist.go:153-154 | the number between a record's first two quotes is the process's pid, whatever the other fields hold |
| ProcessList.ObserveAll | internal/monitors/processlist/processlist.go:125-149 | its ensures: one utilisation per process; its definition: each process observed against the tracker its predecessors left, and the tracker after the last one (the lemmas below state what that tracker and those utilisations are) |
| ProcessList.ObserveKeepsEntry | internal/monitors/processlist/processlist.go:149 | a sighting leaves the tracker's entry for every other key as it was |
| ProcessList.ObserveAllLastWins | internal/monitors/processlist/processlist.go:125-149 | after a sample the tracker holds, for each key, the CPU time of the last process in the sample with that key |
| ProcessList.ObserveAllKeys | internal/monitors/processlist/processlist.go:125-149 | after a sample the tracker's keys are the old keys plus the sample's keys; none is removed |
| ProcessList.ObserveAllKeepsOthers | internal/monitors/processlist/processlist.go:125-149 | keys that are absent from the sample keep their old counts |
| ProcessList.ObserveDependsOnOwnKey | internal/monitors/processlist/processlist.go:143-151 | a sighting's utilisation depends on the tracker only through the entry under the process's own key |
| ProcessList.ObserveAllPercentAt | internal/monitors/processlist/processlist.go:125-151 | process i of a sample is measured against the tracker that processes 0..i-1 of the same sample left |
| ProcessList.KeysOfHas | internal/monitors/processlist/processlist.go:125-149 | every process of a sample contributes its key to the sample's key set |
| ProcessList.KeysOfAbsent | internal/monitors/processlist/processlist.go:125-149 | a key that no process of the sample has is not among the sample's keys |
| ProcessList.SamplePercentAt | internal/monitors/processlist/processlist.go:125-151 | in a sample with distinct keys, each process is measured exactly as if observed alone against the tracker the previous sample left |
| ProcessList.Records | internal/monitors/processlist/processlist.go:125-127 | one record per process |
| ProcessList.RecordsAt | internal/monitors/processlist/processlist.go:125-127 | record i is process i's record with process i's utilisation |
| ProcessList.RecordsInOrder | internal/monitors/processlist/processlist.go:125-127 | records appear in input order: record i is keyed by the pid of process i |
| ProcessList.EmittedRecord | internal/monitors/processlist/processlist.go:125-166 | in a sample with distinct keys, the record emitted for process i carries its utilisation against the tracker the previous sample left |
| ProcessList.ObserveNext | internal/monitors/processlist/processlist.go:125-127 | each loop step observes one process against the tracker its predecessors left and appends its record |
| ProcessList.Aggregate | internal/monitors/processlist/processlist.go:124-128 | the aggregate is braced: it opens with `{` and closes with `}` |
| ProcessList.OverwriteLastComma | internal/monitors/processlist/processlist.go:124-128 | starting with `{`, appending `record,` per process and overwriting the last byte with `}` gives `{` + records joined by commas + `}` |
| ProcessList.Escape | internal/monitors/processlist/processlist.go:131 | escaping never shortens the text |
| ProcessList.EscapeConcat | internal/monitors/processlist/processlist.go:131 | escaping works byte by byte, so it distributes over concatenation |
| ProcessList.EscapeLeavesPlainText | internal/monitors/processlist/processlist.go:131 | text without a backslash is unchanged by escaping |
| ProcessList.EscapeWindowsPath | internal/monitors/processlist/processlist.go:131 | a path such as `C:\app.exe` is escaped to `C:\\app.exe` |
| ProcessList.EscapeRoundTrip | internal/monitors/processlist/processlist.go:131 | halving doubled backslashes recovers the original text exactly |
| ProcessList.EscapeLeavesNoLoneBackslash | internal/monitors/processlist/processlist.go:131 | after escaping, every backslash is next to another backslash |
| ProcessList.Envelope | internal/monitors/processlist/processlist.go:137-139 | the envelope is the fixed head `{"t":"`, the payload, and the fixed tail carrying version `0.0.30`, with nothing in between |
| ProcessList.EnvelopeRoundTrip | internal/monitors/processlist/processlist.go:137-139 | the payload put in the `{"t":…,"v":"0.0.30"}` envelope is exactly what a reader takes out |
| ProcessList.Package | internal/monitors/processlist/processlist.go:130-139 | a compression failure yields an error with the compressor's message; otherwise the envelope carries base64 of the compressed, escaped aggregate |
| ProcessList.ReaderRecoversAggregate | internal/monitors/processlist/processlist.go:130-139 | given inverses of base64 and of the compressor, the reader recovers the aggregate exactly |
| ProcessList.Monitor.constructor | internal/monitors/processlist/processlist.go:34-38 | a new monitor starts with an empty tracker |
| ProcessList.Monitor.EncodeProcess | internal/monitors/processlist/processlist.go:142-167 | the tracker becomes `Observe` of the old tracker; the result is the process's record with the observed utilisation |
| ProcessList.Monitor.EncodeEventMessage | internal/monitors/processlist/processlist.go:119-140 | an empty sample fails with "no processes to encode" and leaves the tracker alone; otherwise the tracker holds all the sample's observations (even when compression then fails), and the result is the packaged aggregate of the records in input order |
| ProcessList.CompressionFailureKeepsTracker | internal/monitors/processlist/processlist.go:124-135 | with a failing compressor the call fails, yet a fresh monitor's tracker holds both processes' CPU times |
| Ecs.GetDimensions | internal/core/common/ecs/ecs.go:16-28 | exactly four dimensions. The task ARN, family and revision are copied. The cluster name is the text after the first `/` of the cluster field, or the whole field when it has no `/`; later slashes are kept |

## Left out

- `Configure` and the interval scheduler, the event sink and the event's fields (`processlist.go:80-117`) are left out. They are plumbing around `encodeEventMessage`. Note that the code sends an event with an empty message even after an encode failure.
- The platform collector `ProcessList()` is not part of this model. The sample is an input. On non-Windows platforms `processlist_notwindows.go` derives `Nice`, and here it is just a string field.
- `toTime` is not part of this model (`processlist.go:169-175`). It is the `cpuTime` parameter of `Formatters`, and so is `%.2f` (`fixed2`).
- zlib compression and base64 encoding are parameters (`Codecs`). The shared zlib writer and its reset are not modelled.
- `CpuPercent`: computed in exact reals. It does not model `float64` rounding, only the finite / negative-zero / ±Inf / NaN outcomes of the division.
- `Observe`: durations and times are unbounded integers. It does not model int64 wrap-around of `TotalCPUTime - lastCPUCount`, nor the saturation of `time.Sub`.
- `Monitor.EncodeEventMessage`: takes one `now` for the whole sample. The code reads the clock once per newly seen process.
- Strings are modelled as sequences of characters, one per byte. No UTF-8 decoding is involved anywhere in the code paths modelled.
- `Ecs`: the JSON field tags and the decoding of task metadata are left out. `Container` and `TaskMetadata` are plain values.
- Memory percentages are taken as given `Float` values from the collector.
