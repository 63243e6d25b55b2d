# Trace agent metrics and configuration, modelled in Dafny

This project models three parts of the trace-nodejs agent:

- **The edge-metrics aggregator** (`lib/agent/metrics/edge/index.js`). It keeps a table protocol → target host → record of the calls the instrumented service makes. `report` appends one observation to the record. `sendMetrics` reduces every record's three sample lists to a median and a 95th percentile. It then empties the table and hands the result to the collector.
- **The APM aggregator** (`lib/agent/metrics/apm/index.js`). It accumulates garbage-collection counters from gc-stats events. Every flush it ships a databag of the timestamp, memory and CPU figures and the live counters object, plus the event-loop figures when the event-loop probe returned stats, then installs fresh counters.
- **The configuration reader** (`lib/utils/configReader.js`). It merges five configuration sources with lodash `defaults`: the constructor argument, the system description, the environment, the configuration file and the built-in defaults. The first defined value of each key wins. It then forces `whiteListHosts` to the host of the collector URL and rejects a configuration without `apiKey` or `serviceName`.

Files:

- `options.dfy`: `Option` (where `None` is JavaScript's `undefined`) and `Result` (a value or a thrown error).
- `dicts.dfy`: JavaScript plain objects used as dictionaries, including the order `Object.keys` enumerates them in.
- `edge_stats.dfy`: `calculateTimes`, its nearest-rank meaning and its sort.
- `edge_log.dfy`: the edge table, the effect of one `report` on it, and a reference definition of the table from the list of reports received since the last flush.
- `edge_metrics.dfy`: the aggregator as a class, its payload, and the edge test replayed.
- `apm_metrics.dfy`: the APM aggregator as a class over a counters object.
- `config_reader.dfy`: the configuration reader as functions returning a `Result`.

The edge aggregator's class keeps a ghost field `reported`, which holds the reports since the last flush. `SendMetrics` returns the payload the source hands to the collector. `Report` keeps the invariant `Tracks()`: every record in the table is what the matching reports describe, and protocols and hosts appear in first-seen order. Together with `PayloadReflectsReports`, this says what the collector receives in terms of the reports alone.

Where the edge test and the code differ, the model follows the code:
- `sendMetrics` ships an array of `{protocol, targetHosts: [{name, metrics}]}` in key-insertion order. It does not ship an object keyed by protocol and host, which is the shape the edge test compares against.
- The test's numbers are reproduced in `Edge.EdgeTestReplay`, in the array shape.

## Model

| member | source | states |
|---|---|---|
| Dicts.Empty | lib/agent/metrics/edge/index.js:10 | a new object has no keys |
| Dicts.Get | lib/agent/metrics/edge/index.js:18 | a read gives the stored value, or `undefined` exactly when the key is missing |
| Dicts.Put | lib/agent/metrics/edge/index.js:19 | an assignment sets one key and leaves every other key alone; a new key goes to the end of the enumeration order, an existing key keeps its place |
| Dicts.PutTwice | lib/agent/metrics/edge/index.js:34-35 | assigning a key twice is the same as assigning it once with the later value |
| EdgeStats.Insert | lib/agent/metrics/edge/index.js:56-58 | inserting into a sorted list keeps it sorted and adds exactly that element |
| EdgeStats.SortAscending | lib/agent/metrics/edge/index.js:56-58 | the numeric comparator sort gives an ascending permutation of the samples |
| EdgeStats.SortedHeadLeast | lib/agent/metrics/edge/index.js:56-58 | the first element of a sorted list is its least element |
| EdgeStats.SortedPermutationUnique | lib/agent/metrics/edge/index.js:56-58 | there is only one ascending permutation of a list, so the result does not depend on the sort algorithm |
| EdgeStats.RoundHalfUp | lib/agent/metrics/edge/index.js:60-61 | `Math.round(p/q)`: the integer nearest to p/q, with halves rounded up |
| EdgeStats.MedianIndex | lib/agent/metrics/edge/index.js:60 | the median index is one less than half the length rounded up: n is 2i+1 or 2i+2 |
| EdgeStats.NinetyFiveIndex | lib/agent/metrics/edge/index.js:61 | the 95th-percentile rank i+1 is the integer nearest 0.95·n, a half rounded up |
| EdgeStats.IndicesInRange | lib/agent/metrics/edge/index.js:60-61 | for a non-empty list, both indices are in range and the median index is at most the 95th-percentile index |
| EdgeStats.At | lib/agent/metrics/edge/index.js:64-65 | indexing gives the element, or `undefined` exactly when the index is out of range |
| EdgeStats.CountWhere | lib/agent/metrics/edge/index.js:55-67 | the number of samples satisfying a condition is at most the number of samples |
| EdgeStats.CountWhereAppend | lib/agent/metrics/edge/index.js:55-67 | counting over two lists in a row adds the two counts |
| EdgeStats.CountWherePermutation | lib/agent/metrics/edge/index.js:56-58 | sorting does not change how many samples satisfy a condition |
| EdgeStats.CountWhereNone | lib/agent/metrics/edge/index.js:55-67 | no sample satisfies the condition, so the count is zero |
| EdgeStats.CountWhereAll | lib/agent/metrics/edge/index.js:55-67 | every sample satisfies the condition, so the count is the length |
| EdgeStats.SortedRankBelow | lib/agent/metrics/edge/index.js:64-65 | in a sorted list, at most k elements are below the k-th |
| EdgeStats.SortedRankAtMost | lib/agent/metrics/edge/index.js:64-65 | in a sorted list, more than k elements are at most the k-th |
| EdgeStats.NearestRank | lib/agent/metrics/edge/index.js:55-67 | the element at sorted index k has at most k samples strictly below it and more than k at or below it, which makes it the nearest-rank statistic of the unsorted samples |
| EdgeStats.CalculateTimes | lib/agent/metrics/edge/index.js:55-67 | an empty list gives undefined median and percentile. Otherwise both are samples, median <= ninetyFive, and each is the nearest-rank value: fewer than round(n/2) samples lie below the median and at least that many lie at or below it, and likewise round(0.95·n) for the 95th percentile |
| EdgeStats.TimesOfSorted | lib/agent/metrics/edge/index.js:55-67 | the median and the 95th percentile are the sorted samples at the two nearest-rank indices |
| EdgeStats.SortThree | lib/agent/metrics/edge/index.js:56-58 | three samples sort to their ascending arrangement, whatever their order |
| EdgeStats.ThreeSamples | lib/agent/metrics/edge/index.js:55-67 | three samples in any order give their middle value as median and their largest as 95th percentile |
| EdgeStats.ResponseTimeExample | lib/agent/metrics/edge/index.spec.js:81 | response times 10, 20, 3 give median 10 and 95th percentile 20 |
| EdgeStats.IncomingDelayExample | lib/agent/metrics/edge/index.spec.js:79 | incoming delays 30, 20, 1 give median 20 and 95th percentile 30 |
| EdgeStats.OutgoingDelayExample | lib/agent/metrics/edge/index.spec.js:80 | outgoing delays 40, 60, 3 give median 40 and 95th percentile 60 |
| EdgeStats.SingleSample | lib/agent/metrics/edge/index.spec.js:70-72 | a single sample is both the median and the 95th percentile |
| EdgeLog.LookupFindsStoredRecord | lib/agent/metrics/edge/index.js:18 | `metrics[protocol][host]` is the stored record, and `undefined` exactly when the protocol or the host is missing |
| EdgeLog.NewHostRecord | lib/agent/metrics/edge/index.js:19-28 | a host's first record carries the report's service key, empty sample lists and zero counters, and is well formed |
| EdgeLog.Record | lib/agent/metrics/edge/index.js:44-52 | one report appends its response time and both delays, adds one to `ok` for status OK and to `notOk` for status NOT_OK and to neither otherwise, keeps the service key, and keeps the lists' lengths equal and the counters within them |
| EdgeLog.PutRecord | lib/agent/metrics/edge/index.js:17-38 | storing a well-formed record for (protocol, host) keeps the table well formed, changes that record and no other, and puts a new protocol or host at the end of its key order |
| EdgeLog.PutRecordLookups | lib/agent/metrics/edge/index.js:17-38 | storing a record for (protocol, host) makes that lookup return it and leaves every other lookup as it was |
| EdgeLog.AfterReport | lib/agent/metrics/edge/index.js:40-53 | after a report, the (protocol, host) record is the old one, or a fresh one carrying the report's service key, updated by the report. Every other record is unchanged. A new protocol or host goes to the end of its key order |
| EdgeLog.StatusCountsBounded | lib/agent/metrics/edge/index.js:48-52 | the ok and not-ok counts together never exceed the number of reports |
| EdgeLog.ExpectedWellFormed | lib/agent/metrics/edge/index.js:44-52 | the record the reports describe has one entry per report in each list and counters within the list length |
| EdgeLog.HostsSeenOnlyUnderSeenProtocols | lib/agent/metrics/edge/index.js:33-38 | a protocol never reported has no hosts |
| EdgeLog.MatchingOnlyForSeenHosts | lib/agent/metrics/edge/index.js:17-31 | a host never reported under a protocol has no reports |
| EdgeLog.AbsentHasNoReports | lib/agent/metrics/edge/index.js:17-38 | a (protocol, host) without a record in a table that tracks the reports has no reports |
| EdgeLog.MatchingOther | lib/agent/metrics/edge/index.js:40-53 | a report for another (protocol, host) does not change the reports of this one |
| EdgeLog.HostsSeenStep | lib/agent/metrics/edge/index.js:17-31 | a report adds its host to the hosts seen under its protocol exactly when the host is new there |
| EdgeLog.ExpectedStep | lib/agent/metrics/edge/index.js:17-31 | the record of a host's reports is the record of all but the last, updated by the last; the first report starts from an empty record with its own service key |
| EdgeLog.ReportKeepsHostOrder | lib/agent/metrics/edge/index.js:17-38 | after a report, the hosts of each protocol are enumerated in the order they were first reported |
| EdgeLog.ReportKeepsReportedRecord | lib/agent/metrics/edge/index.js:40-53 | after a report, the reported (protocol, host) has a record, and it is the record all its reports describe |
| EdgeLog.ReportKeepsRecord | lib/agent/metrics/edge/index.js:40-53 | after a report, every record in the table is the record its reports describe |
| EdgeLog.ReportKeepsSummary | lib/agent/metrics/edge/index.js:40-53 | a report keeps the table equal to the reference built from all reports so far, in first-seen order |
| Edge.Summarize | lib/agent/metrics/edge/index.js:74-86 | a shipped host keeps the record's service key and counters and reduces each list with `calculateTimes` |
| Edge.TargetHosts | lib/agent/metrics/edge/index.js:73-88 | one item per host of the protocol, in key order, named by the host |
| Edge.Payload | lib/agent/metrics/edge/index.js:72-94 | one entry per protocol, in key order, carrying its hosts |
| Edge.PayloadReflectsReports | lib/agent/metrics/edge/index.js:69-97 | a flush ships every protocol and host that was reported since the last flush, and nothing else, in first-seen order. Each host carries its first report's service key, its status counts and the statistics of its samples, and its median is defined |
| Edge.ReportWriteBack | lib/agent/metrics/edge/index.js:40-53 | writing the updated record into the table that `initProtocol` and `initHost` prepared gives the table `AfterReport` describes |
| Edge.EdgeMetrics.constructor | lib/agent/metrics/edge/index.js:3-15 | the aggregator starts with an empty table |
| Edge.EdgeMetrics.InitProtocol | lib/agent/metrics/edge/index.js:33-38 | creates an empty host table only for a protocol that has none, and returns the protocol's host table |
| Edge.EdgeMetrics.InitHost | lib/agent/metrics/edge/index.js:17-31 | creates a zeroed record with the report's service key only for a host that has none, and returns the host's record |
| Edge.EdgeMetrics.Report | lib/agent/metrics/edge/index.js:40-53 | the new table is `AfterReport` of the old one, the report joins the reports since the last flush, and the table keeps describing them |
| Edge.EdgeMetrics.SendMetrics | lib/agent/metrics/edge/index.js:69-97 | the payload handed to the collector is the payload of the table as it was, and the table is empty again |
| Edge.EdgeTestStepOne | lib/agent/metrics/edge/index.spec.js:18-28 | the first psql report creates the protocol, the host and a record with one sample each and one ok |
| Edge.EdgeTestStepTwo | lib/agent/metrics/edge/index.spec.js:30-40 | the second psql report appends to the same record |
| Edge.EdgeTestStepThree | lib/agent/metrics/edge/index.spec.js:42-52 | the third psql report appends to the same record |
| Edge.EdgeTestStepFour | lib/agent/metrics/edge/index.spec.js:54-64 | the http report adds a second protocol after psql, with a not-ok record |
| Edge.OneHostEntry | lib/agent/metrics/edge/index.js:72-94 | a protocol with a single host ships as one entry holding that host's summary |
| Edge.PayloadOfTwo | lib/agent/metrics/edge/index.js:72-94 | two protocols with one host each ship as exactly two entries in key order, each with its host's summary |
| Edge.EdgeTestTable | lib/agent/metrics/edge/index.spec.js:18-64 | the test's four reports, from an empty table, give psql then http, one host each, with the records the reports describe |
| Edge.TestTablePayload | lib/agent/metrics/edge/index.spec.js:66-86 | that table ships two entries, psql before http, with the statistics and counters the test expects |
| Edge.EdgeTestReplay | lib/agent/metrics/edge/index.spec.js:18-86 | four `Report` calls and a `SendMetrics` call on an aggregator with an empty table return the payload the test expects and leave the table empty |
| Apm.BytesToMegaBytes | lib/agent/metrics/apm/index.js:85-87 | the whole number of mebibytes, rounded down |
| Apm.GetMemory | lib/agent/metrics/apm/index.js:66-73 | used, total and rss are the heap-used, heap-total and resident-set sizes in whole mebibytes |
| Apm.BuildDatabag | lib/agent/metrics/apm/index.js:44-59 | the databag carries the timestamp, memory, cpu and the `gc` object. It carries the event-loop figures exactly when the probe returned stats |
| Apm.CountsStep | lib/agent/metrics/apm/index.js:24-40 | one more GC event adds its pause to the total and counts a scavenge for types 1 and 3 and a mark-sweep for types 2 and 3 |
| Apm.CountsBounded | lib/agent/metrics/apm/index.js:24-40 | each GC event adds at most one scavenge and at most one mark-sweep |
| Apm.CountsMonotone | lib/agent/metrics/apm/index.js:24-40 | later GC events never lower the counts and raise them by at most two per event |
| Apm.GcStats.constructor | lib/agent/metrics/apm/index.js:15-19 | new counters start at zero |
| Apm.ApmMetrics.constructor | lib/agent/metrics/apm/index.js:7-22 | the aggregator starts with zeroed counters and no GC events |
| Apm.ApmMetrics.OnGcStats | lib/agent/metrics/apm/index.js:24-40 | adds the pause to the time. Type 1 counts a scavenge, type 2 a mark-sweep, type 3 both, and any other type neither. The counters keep equal to the reference counts of the events since the last reset |
| Apm.ApmMetrics.GetGC | lib/agent/metrics/apm/index.js:81-83 | returns the live counters object itself |
| Apm.ApmMetrics.Reset | lib/agent/metrics/apm/index.js:97-103 | installs a new zeroed counters object and leaves the previous one untouched |
| Apm.ApmMetrics.SendMetrics | lib/agent/metrics/apm/index.js:43-64 | ships the databag holding the counters object as it was, then starts fresh counters; the shipped counters keep their values |
| Apm.ShippedSurvivesEvent | lib/agent/metrics/apm/index.js:97-103 | since `reset` installs a new object, a GC event after any number of flushes leaves every shipped counters object with its counts, and the aggregator valid |
| Apm.SnapshotSurvivesReset | lib/agent/metrics/apm/index.js:43-64 | on one trace (two events, a flush, one more event), the shipped counters keep the first two events' counts and the live counters hold only the third |
| ConfigReader.Truthy | lib/utils/configReader.js:99-105 | the `!` tests (and those of `if (file)` and `\|\|`) treat exactly `undefined`, `null`, `false`, `0` and `""` as false |
| ConfigReader.Field | lib/utils/configReader.js:87 | reading a key gives its value, or `undefined` exactly when it is missing |
| ConfigReader.Defaults | lib/utils/configReader.js:45 | `defaults(target, source)` keeps every key the target defines and takes the rest from the source |
| ConfigReader.FirstDefined | lib/utils/configReader.js:85 | the value comes from the first source that defines the key, and it is `undefined` exactly when no source does |
| ConfigReader.FirstDefinedAt | lib/utils/configReader.js:85 | the first source that defines a key supplies its value |
| ConfigReader.FirstDefinedAppend | lib/utils/configReader.js:85-95 | the first definition over two lists in a row is the first list's, if it has one |
| ConfigReader.DefaultsAll | lib/utils/configReader.js:85-95 | `defaults(target, s1, …)` keeps every key of the target with its value |
| ConfigReader.DefaultsAllPrecedence | lib/utils/configReader.js:85 | `defaults(target, s1, …)` gives every key the value of the first argument that defines it, so a later source never overrides an earlier defined value |
| ConfigReader.DefaultsAllConcat | lib/utils/configReader.js:85-95 | merging in two calls is one merge with all the sources |
| ConfigReader.TwoStageMerge | lib/utils/configReader.js:85-95 | merging the first sources into `{}` and then the rest gives the first defined value over all of them |
| ConfigReader.Create | lib/utils/configReader.js:10-12 | without an argument the parameter configuration is `{}`; otherwise it is the argument |
| ConfigReader.Message | lib/utils/configReader.js:71-104 | the invalid-file, missing-apiKey and missing-serviceName errors carry their messages, and each message belongs to its error only |
| ConfigReader.MessagesDistinct | lib/utils/configReader.js:71-105 | the errors the reader throws have different messages |
| ConfigReader.SystemConfig | lib/utils/configReader.js:14-30 | the system source defines only `system` |
| ConfigReader.GetEnvVarConfig | lib/utils/configReader.js:32-52 | each of the six keys holds its variable's text when the variable is set, and is missing otherwise. `ignoreHeaders` exists exactly when TRACE_IGNORE_HEADERS is non-empty valid JSON, and then holds the parsed value. A warning is printed exactly when it is non-empty and invalid. Nothing else is defined |
| ConfigReader.Or | lib/utils/configReader.js:87 | `a \|\| b` is one of its operands, and truthy exactly when either operand is |
| ConfigReader.ConfigFilePath | lib/utils/configReader.js:87 | the path is the parameter's `configPath` when truthy, else the environment's when truthy, else the default's |
| ConfigReader.GetFileConfig | lib/utils/configReader.js:62-77 | no path, or a file that is not found, gives `{}`. A loaded file gives its contents. Any other failure, including a path that is not a string, is an invalid configuration file, the only error it raises |
| ConfigReader.FilePath | lib/utils/configReader.js:87 | the configuration path is the argument's `configPath` when truthy, else TRACE_CONFIG_PATH when set and non-empty, else the default's `configPath` |
| ConfigReader.FileStage | lib/utils/configReader.js:89 | loading that path fails exactly when it is truthy and is not a string or its file fails other than by being absent, and the failure is the invalid-file error |
| ConfigReader.WhiteList | lib/utils/configReader.js:97 | `whiteListHosts` is a one-element list holding the URL's host, or `null` when the URL has none |
| ConfigReader.Sources | lib/utils/configReader.js:79-95 | there are five sources; the body lists them in precedence order (parameter, system, environment, file, default) |
| ConfigReader.Merge | lib/utils/configReader.js:85-95 | every key of the merged configuration holds its first defined value over parameter, system, environment, file and default |
| ConfigReader.Finish | lib/utils/configReader.js:97-107 | a collector URL that is not a string throws. Otherwise `whiteListHosts` becomes the one-element list of the URL's host, and a falsy `apiKey` and then a falsy `serviceName` throw. Each error holds exactly in its case, and success keeps every other key and has both keys truthy |
| ConfigReader.GetConfig | lib/utils/configReader.js:79-108 | a configuration it returns has a truthy `apiKey` and `serviceName` and a `whiteListHosts` list |
| ConfigReader.FinishMerged | lib/utils/configReader.js:97-107 | the URL, `apiKey` and `serviceName` checks on a merge, stated on the first defined values of its sources, each error holding exactly in its case, and success keeping every other key |
| ConfigReader.GetConfigOutcome | lib/utils/configReader.js:79-108 | the configuration-file error comes first, then the URL, `apiKey` and `serviceName` checks on the first defined values of the five sources, each holding exactly in its case. On success every key but `whiteListHosts` holds its first defined value and `whiteListHosts` is the host list |
| ConfigReader.EmptyEnvApiKeyFirst | lib/utils/configReader.js:39-85 | with no `apiKey` argument and TRACE_API_KEY set to the empty string, the empty string is the first `apiKey` defined over the five sources |
| ConfigReader.EmptyEnvApiKeyMasksLaterSources | lib/utils/configReader.js:39-101 | a TRACE_API_KEY set to the empty string hides an `apiKey` in the file or the defaults, so the reader never succeeds |

## Left out

- Timers: `setInterval` in both aggregators is left to the caller, who calls `SendMetrics`. The edge payload handed to the collector is `SendMetrics`' result, and `collectorApi` is not part of this model.
- Edge.EdgeMetrics.Report: the source mutates the record object it got from `initHost`. The model writes the updated record back into the table as a value, which is equivalent because no other reference to a record escapes.
- Edge.EdgeMetrics.SendMetrics: `calculateTimes` sorts each record's lists in place before the table is dropped. The model sorts a copy, which cannot be observed because the table is replaced at once.
- EdgeStats.SortAscending: the sort is modelled as insertion sort on values; its result is proved unique, so the engine's algorithm does not matter. Non-numeric samples and NaN are not modelled.
- Edge samples, delays, status codes, service keys and GC pause times are whole numbers in the model, while JavaScript numbers can be fractional; `calculateTimes` only compares samples, so no ordering behaviour depends on this. A report without a `targetServiceKey` (a target host without an agent, where the key is `undefined`) is not modelled.
- EdgeStats.NinetyFiveIndex: `n * 0.95` is taken as the exact rational 95n/100, so the double product and its rounding are not modelled.
- Object key order: JavaScript enumerates integer-like keys (such as "80") before the others in ascending order. The model keeps insertion order for all keys, and prototype keys such as `__proto__` are not modelled.
- EDGE_STATUS comes from lib/consts.js, which is not part of this model. The values OK = 0 and NOT_OK = 1 are the ones the edge test uses.
- Apm.ApmMetrics.SendMetrics: the timestamp (`new Date().toISOString()`), `process.memoryUsage()`, `os.loadavg()` and the event-loop probe are parameters.
- `getCpu` floors the one-minute load average. Floating point is not modelled, so the floored value is an input.
- The event-loop probe's statistics are opaque, and the counts of active requests and handles are inputs.
- Process id, `collectorApi`, `config` and `lagId` fields of the APM aggregator carry no logic and are not modelled.
- `_getSystemConfig`, `process.env`, `require` of the defaults and of the file, `path.resolve`, `JSON.parse` and `url.parse(...).host` are inputs. The file outcome is Loaded, NotFound or OtherError.
- ConfigReader.GetFileConfig: a loaded file is modelled as an object. A module exporting a non-object is not modelled.
- ConfigReader.Truthy: NaN and -0 are not among the numbers, and numbers are integers.
- ConfigReader.Defaults: a key present with the value `undefined` is treated like a missing key, which is what lodash `defaults` does. The key order of the resulting object is not modelled.
- ConfigReader.Message: the message of the TypeError that `url.parse` throws depends on the Node version and is not modelled.
- The debug log and the ignore-headers warning's text and date are output only; the warning is kept as a flag.
- The HTTP request wrapper, the span-correlation agent and the collector API client are not part of this model.
