# prometheus-adapter: the Elasticsearch storage, modelled in Dafny

prometheus-adapter gives Prometheus a place to send samples it scrapes
(remote write) and to query them back (remote read), with Elasticsearch
as the storage. This project models the storage's core.

- **Document codec** (`samples.go`). On the write path, every sample of
  every series becomes one flat document carrying the series' label set.
  A NaN value is stored as 0. On the read path, documents are grouped
  back into one series per label-set fingerprint.
- **Bool query** (`buildBoolQuery`). Each label matcher of a remote-read
  query becomes one term or regexp clause on `labels.<name>.keyword`:
  - EQ and RE go to Must, NEQ and NRE to MustNot;
  - a regex pattern loses its `^`/`$` anchors first;
  - the time window becomes an inclusive range filter on `timestamp`;
  - an unknown operator is an error;
  - an empty pattern, or the pattern `^`, makes the anchor stripping
    panic.
- **Paged search** (`scrollSaerch`):
  - page 1 fixes the document count: its total hits, capped by the
    `query.max-size` flag when that is positive;
  - pages are fetched until `page * QuerySize` reaches the count;
  - the hits are then cut to the count;
  - EOF on page 1 means "no results"; any other failure, including EOF
    on a later page, is an error.
- **Read**. Queries are answered in order. A query whose build fails,
  whose search fails, or whose first page is EOF adds nothing. The error
  returned is always nil. A panic in the anchor stripping unwinds the
  whole call.
- **Write**. Every flattened sample is sent once, in order, to the bulk
  processor, addressed to the configured index and type. The flush error
  is returned.
- **Configuration** (`loadConfig` after the file is decoded):
  - the node list defaults to `127.0.0.1:9200`;
  - the nodes are checked in turn, IP before port, and the first failure
    is returned;
  - user, password, index, type, workers and bulk size get their
    defaults;
  - `querySize` 0 becomes 5000, and above 10000 it is an error;
  - `mappingPath` defaults to `mapping.json`.
- **Node URLs** (`http://ip:port`), built in `Init`.
- **Worker statistics** (`InitWorkers`).
- **Utilities**: `RevisePattern`, `MatchIp`, `MatchPort` and `GetPath`.

The objects the source updates in place are classes:
- `Samples`, whose `items` is the Go slice;
- `Workers`;
- `ElasticCluster`, whose fields are those of the decoded adapter file.

Their methods are proved against specification functions:
- `Flatten`, `IsRegrouping`, `LoadSpec`, `BuildSpec`, `ScrollSpec` and
  `Contributions`;
- lemmas about those functions state what the source promises.

Regular expressions are modelled as the languages they denote:
- the IP pattern is a split on `.` into four octet groups;
- the port pattern is one disjunct per alternative.

The fingerprint of a label set is modelled as the label set itself. Two
documents therefore land in the same series exactly when their label sets
are equal.

What comes from outside the code becomes a parameter, and the model
proves its results for every value of it:
- Go's map iteration order: any order is allowed;
- the scroll service: the sequence of outcomes its calls return (`Backend`);
- the `query.max-size` flag (`queryMaxSize`);
- the bulk processor's creation error and flush error (`processorError`,
  `flushError`);
- the executable's directory.

Modules, one per file:
- `Wrappers`: `Option`.
- `Prompb`: remote-read/write protocol types.
- `Regexp`: `util/regexp`.
- `Path`: `util/os/path`.
- `EsWorkers`: `workers.go`.
- `EsSamples`: `samples.go`.
- `EsQuery`: `buildBoolQuery`.
- `EsScroll`: `scrollSaerch`.
- `Elastic`: the `ElasticCluster` of `es.go`.

## Model

| member | source | states |
|---|---|---|
| Regexp.RevisePattern | util/regexp/regexp.go:17-25 | For a pattern it can slice, the result is the pattern with one leading `^` and one trailing `$` removed, and nothing else; it is at most two characters shorter |
| Regexp.RevisePatternUnanchored | util/regexp/regexp.go:17-25 | A non-empty pattern with neither anchor passes through unchanged |
| Regexp.RevisePatternReanchor | util/regexp/regexp.go:17-25 | Stripping undoes anchoring: `RevisePattern("^" + q + "$") == q` for every q, including the empty q |
| Regexp.IpOctetValue | util/regexp/regexp.go:29 | The octet group `2[0-4]\d\|25[0-5]\|[01]?\d\d?` accepts exactly the 1- to 3-digit strings of value at most 255 (both directions) |
| Regexp.MatchIpDottedQuad | util/regexp/regexp.go:28-45 | Any four octet groups joined by dots form an accepted address |
| Regexp.MatchIpDecomposes | util/regexp/regexp.go:28-45 | Every accepted address splits on `.` into exactly four parts, each 1 to 3 digits of value at most 255, which join back to the address |
| Regexp.MatchPortSound | util/regexp/regexp.go:48-65 | Everything the port pattern accepts is a canonical decimal port: no leading zero, value at most 65535 |
| Regexp.MatchPortRejectsPort60009 | util/regexp/regexp.go:49 | "60009" is a canonical port in 0..65535, yet the pattern as written refuses it |
| Regexp.ValidPortIff | util/regexp/regexp.go:49 | The corrected port language accepts exactly the canonical ports 0..65535 (both directions) |
| Regexp.DefaultAddressMatches | service/storage/elasticsearch/es.go:82 | The default node `127.0.0.1:9200` passes the IP pattern, the port pattern as written, and the corrected port check |
| Path.GetPath | util/os/path/path.go:18-25 | The error is always nil. An absolute file comes back unchanged; a relative one gets the executable's directory and `/` in front. The result always ends with the file name, and with a non-empty directory it is absolute exactly when the file or the directory is |
| EsWorkers.Workers.InitWorkers | service/storage/elasticsearch/workers.go:24-34 | An error exactly when the worker list is empty, with that error's text, and then the list is left untouched. Otherwise one entry per worker is appended after the existing ones, in order, numbered by position and carrying the worker's queue depth and last duration |
| EsSamples.BuildMetric | service/storage/elasticsearch/samples.go:25-28 | The metric filled from the labels is the label set they denote: each label written in turn |
| EsSamples.MetricKeys | service/storage/elasticsearch/samples.go:25-28 | The metric has one key per distinct label name |
| EsSamples.MetricLastWins | service/storage/elasticsearch/samples.go:26-28 | With a repeated label name, the value of its last occurrence wins |
| EsSamples.MetricLabels | service/storage/elasticsearch/samples.go:52-57 | For any map iteration order, the label list has distinct names, denotes exactly the metric, and has one label per key |
| EsSamples.Samples.TimeSeries2Samples | service/storage/elasticsearch/samples.go:22-38 | The slice becomes its old contents followed by the flattened documents of the batch |
| EsSamples.FlattenLength | service/storage/elasticsearch/samples.go:22-38 | Flattening emits exactly one document per input sample |
| EsSamples.FlattenAt | service/storage/elasticsearch/samples.go:23-37 | Sample k of series i lands right after the samples of the earlier series. It carries the series' label set, its value with NaN replaced by 0, and its timestamp |
| EsSamples.DocsAt | service/storage/elasticsearch/samples.go:31-36 | Document k of a series has the series' metric, the k-th value with NaN replaced by 0, and the k-th timestamp |
| EsSamples.FlattenLabelSets | service/storage/elasticsearch/samples.go:22-38 | The label sets the documents carry are exactly those of the series that have at least one sample |
| EsSamples.FlattenGroup | service/storage/elasticsearch/samples.go:22-38 | When label sets are distinct, the documents of series i are exactly its samples, in order, with NaN replaced by 0 |
| EsSamples.Samples.Samples2QueryResult | service/storage/elasticsearch/samples.go:42-76 | For any map iteration order, the result regroups the documents. It holds one series per distinct label set, no two sharing one, and each series holds exactly that label set's samples in document order |
| EsSamples.GroupByFingerprint | service/storage/elasticsearch/samples.go:43-68 | The map has one entry per label set of the documents. The entry's labels denote that set with distinct names, and its samples are that set's samples in document order |
| EsSamples.FingerprintMapStep | service/storage/elasticsearch/samples.go:44-67 | One more document either creates its label set's entry or appends to it, and the map invariant holds for the longer prefix |
| EsSamples.MapValues | service/storage/elasticsearch/samples.go:69-72 | For any map iteration order, every entry of the map is listed exactly once, and nothing else is listed |
| EsSamples.RegroupingOfMap | service/storage/elasticsearch/samples.go:69-75 | Listing the values of a fingerprint map in any order regroups the documents |
| EsSamples.RegroupingTotal | service/storage/elasticsearch/samples.go:42-76 | Regrouping neither loses nor duplicates anything: the output holds as many samples as the input |
| EsSamples.RegroupRoundTrip | service/storage/elasticsearch/samples.go:22-76 | Writing a batch whose series have distinct label sets and reading it back gives every series with samples. Its label set comes back, and its samples come back in order with NaN replaced by 0. Every series read back comes from the batch in this way |
| EsSamples.RegroupKeeps | service/storage/elasticsearch/samples.go:22-76 | The read-back result holds each stored series of the batch (one direction of the round trip) |
| EsSamples.RegroupStored | service/storage/elasticsearch/samples.go:22-76 | Each series of the read-back result is a stored series of the batch (the other direction) |
| EsQuery.FirstBlock | service/storage/elasticsearch/es.go:423-437 | The loop stops at the first matcher with an unknown operator or an unrevisable regex pattern; every matcher before it passes |
| EsQuery.BuildSpecContract | service/storage/elasticsearch/es.go:419-442 | A query is built exactly when no matcher stops the loop. It then has the inclusive timestamp range filter, one clause per matcher, and as many Must clauses as EQ/RE matchers. The result is an error exactly when the first stopping matcher has an unknown operator, with the error text naming its number. A panic happens at a regex matcher whose pattern cannot be revised, and all earlier matchers pass |
| EsQuery.BuildBoolQuery | service/storage/elasticsearch/es.go:419-442 | The loop's outcome is the specified one for every query. Up to the stopping matcher, each RE/NRE matcher has its pattern revised in place; the later matchers are untouched |
| EsQuery.AddMatcher | service/storage/elasticsearch/es.go:425-434 | One case of the switch for a matcher that does not stop the loop: RE/NRE matchers come back with their revised pattern, and the clause is the matcher's term or regexp clause |
| EsQuery.StopsAt | service/storage/elasticsearch/es.go:430-436 | A stopping matcher at position i after passing ones gives the error for an unknown operator, and otherwise the panic at i |
| EsQuery.ClauseCount | service/storage/elasticsearch/es.go:423-438 | Every matcher adds exactly one clause, to Must or to MustNot |
| EsQuery.ClausesLength | service/storage/elasticsearch/es.go:423-438 | Each clause list is as long as the number of matchers of its polarity |
| EsQuery.ClausesAt | service/storage/elasticsearch/es.go:423-438 | Clauses keep matcher order: matcher j's clause sits in its list right after the clauses of the earlier matchers of the same polarity |
| EsQuery.ClauseKinds | service/storage/elasticsearch/es.go:425-434 | Every clause is on `labels.<name>.keyword`. EQ/NEQ give a term query on the value, and RE/NRE a regexp query on the revised pattern |
| EsQuery.NatToStringRoundTrip | service/storage/elasticsearch/es.go:436 | The decimal text of a non-negative number is all digits and reads back as the number |
| EsQuery.IntToStringRoundTrip | service/storage/elasticsearch/es.go:436 | The text an unnamed operator code is printed as, negative int32 codes included, starts with `-` exactly when the code is negative; the rest is all digits and reads back as the code's magnitude |
| EsScroll.Cap | service/storage/elasticsearch/es.go:473-478 | The wanted count is min(total hits, max size) when the max size is positive, and the total hits otherwise |
| EsScroll.PagesNeeded | service/storage/elasticsearch/es.go:458-493 | With a positive QuerySize, the page loop stops at the first page p ≥ 1 with `p * QuerySize >= count` |
| EsScroll.PagesNeededIsCeiling | service/storage/elasticsearch/es.go:490-492 | That page is 1 for a zero count and ⌈count / QuerySize⌉ otherwise |
| EsScroll.StopPage | service/storage/elasticsearch/es.go:458-493 | The stop page, when there is one, is the first page reaching the count. When there is none, no page reaches it (QuerySize ≤ 0 and a positive count, or a negative QuerySize) |
| EsScroll.FirstFailure | service/storage/elasticsearch/es.go:466-471 | The first failing call in a page range, with all earlier pages in the range succeeding; none means every page in the range succeeds |
| EsScroll.Truncate | service/storage/elasticsearch/es.go:495-497 | Cutting to the count keeps the first min(length, count) documents |
| EsScroll.ScrollSpecContract | service/storage/elasticsearch/es.go:445-500 | "No results" exactly when page 1 is EOF; any other page-1 failure is returned as is. A later failure names a failing page reached after pages that all succeeded. Found results come from a successful page 1, stay within the wanted count, and the loop stops only when QuerySize is positive or the count is 0 |
| EsScroll.ScrollSearch | service/storage/elasticsearch/es.go:445-500 | The page loop returns the specified result for every sequence of page outcomes |
| EsScroll.FailsAt | service/storage/elasticsearch/es.go:466-471 | A failure on page k after k − 1 successful pages that did not reach the count is what the search returns |
| EsScroll.StopsAt | service/storage/elasticsearch/es.go:490-499 | Stopping at the first page reaching the count returns the hits of pages 1..page, cut to the count |
| EsScroll.ScrollFoundSize | service/storage/elasticsearch/es.go:458-499 | With a positive QuerySize and successful pages up to the stop page, the result is their hits in page order cut to the count: min(hits fetched, count) documents, so a short page gives fewer |
| EsScroll.FullPagesGiveCount | service/storage/elasticsearch/es.go:458-499 | With a positive QuerySize and full pages, the result holds exactly the wanted number of documents |
| EsScroll.FirstFailureWithinScroll | service/storage/elasticsearch/es.go:458-471 | A drained scroll always fails, at the latest one page past the given outcomes, so the infinite loop ends |
| Regexp.MatchIp | util/regexp/regexp.go:28-45 | The IP pattern as a language: the text splits on `.` into exactly four octet groups (definition; its properties are the MatchIp lemmas above) |
| Regexp.MatchPort | util/regexp/regexp.go:48-65 | The port pattern as written, one disjunct per alternative, including the faulty `6[0-5]{2}[0-3][0-5]` (definition; see MatchPortSound and the finding) |
| Elastic.NodeOk | service/storage/elasticsearch/es.go:86-89 | A node passes when its IP matches the IP pattern and its port matches the port pattern as written (definition) |
| Elastic.NodeMessage | service/storage/elasticsearch/es.go:86-89 | The error for a failing node: the IP message when the IP fails, the port message (`"port" + port`, no space) otherwise (definition) |
| Elastic.NodeOkWithinIntended | util/regexp/regexp.go:49 | Every node the as-written check accepts, the intended check (every canonical port) accepts too; node 127.0.0.1:60009 passes the intended check and fails the one as written |
| Elastic.FirstBadNode | service/storage/elasticsearch/es.go:84-92 | The position of the first node failing the address checks as written; all earlier nodes pass |
| Elastic.NodesErrorContract | service/storage/elasticsearch/es.go:84-92 | The node loop fails exactly when some node fails the as-written checks (both directions), and it reports the first such node's message |
| Elastic.CheckNodes | service/storage/elasticsearch/es.go:84-92 | The loop returns the specified node error, testing the IP pattern before the port pattern as written |
| Elastic.DefaultNodeOk | service/storage/elasticsearch/es.go:81-90 | The default node passes the node checks |
| Elastic.LoadSpecRejectsPort | service/storage/elasticsearch/es.go:84-90 | A single node whose IP passes and whose port fails the pattern as written (such as 60009) ends loading with `"port" + port + " is not match pattern"`, with no default applied |
| Elastic.UrlRoundTrip | service/storage/elasticsearch/es.go:153-157 | A node whose IP has no `:` is read back from its URL |
| Elastic.MatchIpHasNoColon | util/regexp/regexp.go:29 | An accepted IP holds no `:` |
| Elastic.UrlInjective | service/storage/elasticsearch/es.go:153-157 | Distinct accepted nodes give distinct URLs |
| Elastic.ElasticCluster.Urls | service/storage/elasticsearch/es.go:153-157 | One `http://ip:port` URL per node, in node order, from which each node with a colon-free IP can be read back |
| Elastic.LoadSpecErrors | service/storage/elasticsearch/es.go:81-138 | Loading succeeds exactly when the defaulted nodes pass and querySize ≤ 10000. A node failure returns the first node's error and leaves only the node default applied. An oversized querySize returns the adapter-file error and leaves querySize and mappingPath as they were |
| Elastic.LoadSpecDefaults | service/storage/elasticsearch/es.go:81-138 | The defaults, field by field: nodes always defaulted; sniff and healthcheck never touched; the credentials, index, type, workers and bulk size defaulted once the nodes pass; querySize 0 → 5000 and mappingPath defaulted on success |
| Elastic.LoadSpecSettled | service/storage/elasticsearch/es.go:81-138 | A successful load leaves a settled configuration, and loading a settled configuration changes nothing (idempotence) |
| Elastic.ElasticCluster.LoadConfig | service/storage/elasticsearch/es.go:81-138 | The cluster's new fields and the returned error are those specified for the fields it had |
| Elastic.ElasticCluster.DefaultNodes | service/storage/elasticsearch/es.go:81-83 | An empty node list becomes the local node; nothing else changes |
| Elastic.ElasticCluster.DefaultSettings | service/storage/elasticsearch/es.go:93-126 | Empty user, password, index and type take "elastic", "changeme", "prometheus" and "metric". Zero workers and bulk size become 1. The other fields are unchanged |
| Elastic.ElasticCluster.CheckQuerySize | service/storage/elasticsearch/es.go:127-137 | querySize 0 becomes 5000 and one above 10000 is refused before mappingPath is defaulted |
| Elastic.FirstPanicContract | service/storage/elasticsearch/es.go:376-413 | The first query whose build panics, with no earlier one panicking; none exactly when no query panics |
| Elastic.ContributionsBound | service/storage/elasticsearch/es.go:373-415 | Each query yields at most one result |
| Elastic.ContributionsAppend | service/storage/elasticsearch/es.go:376-413 | Queries are answered independently and in order: the results for a + b are those for a, then those for b |
| Elastic.ReadStep | service/storage/elasticsearch/es.go:376-413 | Answering one more query keeps the results in step with the contributions of the queries so far |
| Elastic.ElasticCluster.AnswerQuery | service/storage/elasticsearch/es.go:381-408 | One query panics exactly when its build panics. Otherwise it adds one regrouped result when the build and the search succeed and the search found documents (possibly none), and nothing otherwise |
| Elastic.ContributionCapped | service/storage/elasticsearch/es.go:473-478 | With a positive query.max-size, the documents one query contributes number at most that size |
| Elastic.ContributionsCapped | service/storage/elasticsearch/es.go:376-413 | With a positive query.max-size, every query's contribution stays within it; the cap applies per query |
| Elastic.ReadResultsCapped | service/storage/elasticsearch/es.go:371-416 | With a positive query.max-size, each result of a read holds at most that many samples |
| Elastic.ElasticCluster.Read | service/storage/elasticsearch/es.go:371-416 | Read panics at the first panicking query. Otherwise it returns a nil error and, in query order, one regrouping of the found documents for each query that builds and finds results; with a positive query.max-size each result holds at most that many samples |
| Elastic.ElasticCluster.Write | service/storage/elasticsearch/es.go:269-307 | A processor-creation error is returned with nothing sent. Otherwise one bulk index request per flattened sample is sent, in order, to the configured index and type, and the flush error is returned |

## Left out

- Elastic.ElasticCluster.LoadConfig: reading the adapter file, resolving
  its path and decoding its YAML are not modelled. The model starts from
  the decoded record (the constructor), and `adapterFilePath` is a
  parameter used only in the querySize error text.
- Elastic.ElasticCluster.Read: the revised matcher values are not carried
  out of Read into the caller's queries. Go overwrites them through the
  query pointers; `EsQuery.BuildBoolQuery` returns them, but Read drops
  them.
- Elastic.ElasticCluster.Write: the bulk processor's batching, workers,
  `BulkSize << 20`, `Stats`, the `after` callback and `Close` are not
  modelled. The processor-creation and flush errors are parameters.
- EsSamples.Samples.Samples2QueryResult: the order of the series and of
  each series' labels is left open, because it depends on Go's map
  iteration order.
- EsSamples.Samples.TimeSeries2Samples: the NaN-to-0 overwrite of the
  caller's sample is not modelled, and neither is the one metric map that
  all documents of a series share. Values are modelled as values, not
  pointers.
- EsScroll.ScrollSearch:
  - `KeepAlive`, `Sort`, the index, type and size settings, and `Clear`
    are not modelled;
  - JSON decoding of the hits in `Each` is not modelled;
  - the scroll service's answers are the `pages` parameter, and the
    query.max-size flag is the `queryMaxSize` parameter;
  - `page * QuerySize` is computed on unbounded integers; Go's `int`
    overflow is not modelled;
  - the conversion of the int64 total hit count to `int` is not modelled;
  - a page outcome may be a successful page with no hits. The source never
    sees one, because the client reports a page with no hits as EOF; every
    contract holds for this wider input as well;
  - the `while true` loop ends in the model because every call past the
    given outcomes returns EOF (`EsScroll.PageAt`), i.e. the scroll is
    eventually drained. With QuerySize ≤ 0 and a positive count the source's
    loop has no other exit: it ends only when `Do` fails
    (`EsScroll.FirstFailureWithinScroll`).
- Elastic.ElasticCluster.Read: query.max-size bounds each query's result,
  not the whole call, as in the source (the cap is applied inside each
  scroll search); a request with n queries can return up to n times the
  cap. `Elastic.ReadResultsCapped` states the per-query bound.
- EsSamples.IsRegrouping: documents are grouped by label-set identity,
  while the source groups by `Fingerprint()`, a 64-bit hash of the label
  set. Two different label sets whose hashes collide would be merged into
  one series by the source; the model, and the "never merged" direction of
  `EsSamples.RegroupRoundTrip`, assume no collision.
- Elastic.ElasticCluster.Read: the client is a `Backend` function, so a
  given bool query always gets the same page outcomes.
- `Init`: creating the client (`elastic.NewClient`), reading the mapping
  file and creating the index and type are external calls and are not
  modelled. Only the URL assembly is (`Urls`).
- `Workers.String` and `stats`: JSON formatting for the log is not
  modelled.
- Logging throughout is not modelled.
- Prompb.Value: float64 is kept abstract (a real, ±Inf or NaN), because no
  arithmetic is done on values. Integer fields are unbounded.
- Path.GetPath: `filepath.Dir(os.Args[0])` is the parameter `exeDir`, and
  absolute paths follow the Unix rule only (a leading `/`).
- The concurrency of the bulk workers is not modelled.

## Findings

| source | as written | input that shows it | evidently intended | confidence | as-written member | corrected member |
|---|---|---|---|---|---|---|
| util/regexp/regexp.go:49 | The last alternative `6[0-5]{2}[0-3][0-5]` limits each of the four digits after the 6 separately, so most ports from 60000 to 65535 are refused | "60009" | every decimal port 0..65535, e.g. `6[0-4]\d{3}\|65[0-4]\d{2}\|655[0-2]\d\|6553[0-5]` | not executed | Regexp.MatchPortRejectsPort60009 | Regexp.ValidPortIff |
