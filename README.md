# liveapichecker core, modelled in Dafny

liveapichecker is a reverse proxy that sits in front of an HTTP service and
checks live traffic against the service's OpenAPI description. Every response
goes to the client. At the same time it is recorded by a
`ResponseWriterRecorder`, through a `DupResponseWriter` that writes to both
sinks. Finished recordings are handed to a coverage engine, the
`CoverageChecker`. The engine matches each request against the API's path
templates with a `PathMatcher`. On the matching endpoint it marks the
response's status code as covered, or as undocumented when the API does not
list it. It also records the request's query-parameter values. A report lists,
for each endpoint:

- the status codes seen;
- the undocumented codes;
- the distinct values seen for each declared parameter.

The project has these modules:

| module | file | what it holds |
|---|---|---|
| `Wrappers` | `wrappers.dfy` | `Option` and `Result` |
| `Text` | `text.dfy` | ASCII upper-casing of method names; the lexicographic string order behind string sorting |
| `Sorting` | `sorting.dfy` | an in-place insertion sort standing for the library's slice sorts; a functional insertion sort that specifies it; enumeration of a set, standing for map iteration |
| `Tables` | `tables.dfy` | the (outer key, inner key) pairs of a two-level map, and their count |
| `Http` | `http.dfy` | the request fields the core reads; the header type; a client connection (`ClientSink`) whose failure, call by call, is given as a parameter |
| `PathMatch` | `pathmatcher.dfy` | `pkg/pathmatcher/pathmatcher.go` |
| `Proxy` | `proxy.dfy` | `pkg/proxy/responsewriterrecorder.go` and `pkg/proxy/dupresponsewriter.go`; the sequential part of the handler that uses them |
| `LegacyProxy` | `legacy_proxy.dfy` | the older copies in `cmd/liveapichecker/dupresponsewriter.go` |
| `QueryParams` | `coverage_queryparams.dfy` | `pkg/analyzer/coverage_queryparams.go` |
| `Coverage` | `coverage.dfy` | `pkg/analyzer/coverage.go` |

Objects whose fields the Go code updates in place are Dafny classes with
`modifies` frames:

- the path matcher;
- both recorders and both duplicating writers;
- the parameter checker;
- the coverage engine.

Each of their methods states the whole new state. The pure parts are
functions, with lemmas about them:

- template conversion;
- the status latch;
- flattening of query values;
- the effect of observations on a tracker.

The host library's operations are function-valued parameters:

- the trie router's lookup (denco);
- path cleaning and joining.

The router's lookup comes with one assumption, `PathMatch.Honest`: a value it
finds was stored in that router.

Go iterates maps in an unspecified order. The model picks each element with
`:|`. Contracts on loops over maps therefore never fix an order. Where the
result is a sequence, a ghost `origin` sequence names the entry behind each
element.

## Model

| member | source | states |
|---|---|---|
| Text.ToUpper | pkg/pathmatcher/pathmatcher.go:43 | The result has the input's length. Each character is upper-cased at its own position, so no lower-case ASCII letter remains. |
| Text.ToUpperIdempotent | pkg/pathmatcher/pathmatcher.go:52 | Upper-casing an upper-cased method name changes nothing, so the key filed by AddRoute is the key LookupRoute computes. |
| Text.StrLeTotal | pkg/analyzer/coverage_queryparams.go:208 | Any two strings are ordered one way or the other. The order compares characters by code point, which on valid UTF-8 agrees with the byte order of sort.Strings. |
| Text.StrLeAntisymmetric | pkg/analyzer/coverage_queryparams.go:208 | Two strings each ordered before the other are equal. |
| Text.StrLeTransitive | pkg/analyzer/coverage_queryparams.go:208 | The string order is transitive. |
| Sorting.InsertionSort | pkg/analyzer/coverage.go:205 | Sorting in place leaves the array ordered and a permutation of its old contents. |
| Sorting.SortedUnique | pkg/analyzer/coverage_queryparams.go:208 | Two sorted permutations of one multiset are equal, so an in-place sort's outcome is fully determined. |
| Sorting.SortBySorted | pkg/analyzer/coverage_queryparams.go:208 | The functional sort returns a sorted permutation of its input. |
| Sorting.SortByCanonical | pkg/analyzer/coverage_queryparams.go:208 | Inputs with the same elements, in any order, sort to the same sequence. |
| Sorting.Elements | pkg/analyzer/coverage.go:202-204 | Ranging over a set visits each element exactly once: the result has no duplicates, the set's elements and the set's size. |
| Sorting.PermutationKeepsDistinct | pkg/analyzer/coverage.go:205 | A permutation of a duplicate-free sequence is duplicate-free, so sorted map keys stay distinct. |
| Tables.PairsOverAdd | pkg/analyzer/coverage_queryparams.go:155-161 | Counting one more location adds exactly the number of names filed under it. |
| Http.ClientSink.Write | pkg/proxy/dupresponsewriter.go:47 | The client accepts all bytes, or at most the failing connection's allowance together with its error; the body grows by exactly the accepted prefix. |
| PathMatch.CloseBrace | pkg/pathmatcher/pathmatcher.go:33 | The lazy `(.+?)}` group ends at the first '}' with no newline before it. When there is none, every later '}' comes after a newline. |
| PathMatch.SegmentEnd | pkg/pathmatcher/pathmatcher.go:33 | The `[^/]*` tail ends at the next '/' or at the end of the template, and contains no '/'. |
| PathMatch.ConvertPlaceholder | pkg/pathmatcher/pathmatcher.go:33-44 | `ConvertTemplate`, the regex rewrite `{(.+?)}([^/]*)` -> `:$1`: for any name (a non-empty name with no newline and no '}' after its first character), any '/'-free suffix and any rest that is empty or starts with '/': `{name}` and its suffix become `:name`, and conversion carries on over the rest. |
| PathMatch.ConvertLiteral | pkg/pathmatcher/pathmatcher.go:44 | A template without '{' is converted to itself. |
| PathMatch.ConvertLiteralPrefix | pkg/pathmatcher/pathmatcher.go:44 | Literal text before the first placeholder is copied unchanged. |
| PathMatch.ConvertShortens | pkg/pathmatcher/pathmatcher.go:44 | Conversion never makes a template longer. |
| PathMatch.ConvertLastPlaceholder | pkg/pathmatcher/pathmatcher.go:33-44 | Literal text without '{', followed by one placeholder (a non-empty name without newline or '}') and a '/'-free suffix, converts to the literal text followed by `:name`. |
| PathMatch.ConvertPetsId | pkg/pathmatcher/pathmatcher.go:44 | `/pets/{id}` converts to `/pets/:id`. |
| PathMatch.ConvertDropsSuffix | pkg/pathmatcher/pathmatcher.go:44 | Text after the closing brace, up to the next '/', is dropped: `/f/{id}.json` converts to `/f/:id`. |
| PathMatch.AsWrittenParams | pkg/pathmatcher/pathmatcher.go:65-70 | The params map has exactly the captured names as keys, and every value is "". |
| PathMatch.CapturedParams | pkg/pathmatcher/pathmatcher.go:65-70 | The intended params map has exactly the captured names as keys. |
| PathMatch.CapturedParamsLastWins | pkg/pathmatcher/pathmatcher.go:65-70 | In the intended map a name holds the value of its last capture. |
| PathMatch.CapturedValueLost | pkg/pathmatcher/pathmatcher.go:68 | For `/pets/42` against `/pets/:id`, the code gives id = "" where id = "42" is meant. |
| PathMatch.BuiltRouters | pkg/pathmatcher/pathmatcher.go:78-85 | Build makes exactly one router per method that has records. |
| PathMatch.ResolveBeforeBuild | pkg/pathmatcher/pathmatcher.go:53-56 | Before Build there are no routers, so every lookup misses. |
| PathMatch.ResolveIgnoresCase | pkg/pathmatcher/pathmatcher.go:52 | Two method spellings that upper-case alike give the same lookup result. |
| PathMatch.ResolveMiss | pkg/pathmatcher/pathmatcher.go:57-64 | A router miss, or a stored value that is not a string, gives no match. |
| PathMatch.ResolveHit | pkg/pathmatcher/pathmatcher.go:57-74 | A match carries the upper-cased method and the stored original template. It has one parameter per captured name, each with value "". |
| PathMatch.ResolveFindsAddedTemplate | pkg/pathmatcher/pathmatcher.go:42-85 | With routers built from the records, a match names a template that was added under that method. |
| PathMatch.PathMatcher.constructor | pkg/pathmatcher/pathmatcher.go:32-38 | A new matcher has no records and no routers. |
| PathMatch.PathMatcher.AddRoute | pkg/pathmatcher/pathmatcher.go:42-47 | Appends (converted template, original template) to the records of the upper-cased method and changes nothing else. |
| PathMatch.PathMatcher.Build | pkg/pathmatcher/pathmatcher.go:78-85 | Replaces the routers by one per method, each built from all of that method's records. |
| PathMatch.PathMatcher.LookupRoute | pkg/pathmatcher/pathmatcher.go:51-75 | The result is the specification `Resolve` applied to the current routers; the Resolve lemmas above state what that means. |
| Proxy.FirstNonZeroWins | pkg/proxy/responsewriterrecorder.go:52-57 | On a fresh recorder, a series of WriteHeader calls leaves the first non-zero status. |
| Proxy.OnceSetStaysSet | pkg/proxy/responsewriterrecorder.go:52-57 | Once the status is non-zero, later WriteHeader calls do not change it. |
| Proxy.ResponseWriterRecorder.constructor | pkg/proxy/responsewriterrecorder.go:20-31 | A new recorder keeps the request, with status 0, no headers and an empty body. |
| Proxy.ResponseWriterRecorder.Write | pkg/proxy/responsewriterrecorder.go:39-49 | Writing latches status 200, appends the bytes to the body and reports every byte written without error. |
| Proxy.ResponseWriterRecorder.WriteHeader | pkg/proxy/responsewriterrecorder.go:52-57 | The status is set only while it is still 0. |
| Proxy.DupResponseWriter.constructor | pkg/proxy/dupresponsewriter.go:24-30 | A new writer has the two sinks, no local headers, and has not written the header. |
| Proxy.DupResponseWriter.Write | pkg/proxy/dupresponsewriter.go:44-54 | Flushes headers and status 200 first if not yet done. The caller gets the client's result. The recorder receives the bytes only when the client took them without error. |
| Proxy.DupResponseWriter.WriteHeader | pkg/proxy/dupresponsewriter.go:58-66 | Only the first call acts: it copies the local headers into both sinks, then sends the status to the client and latches it on the recorder. Later calls change nothing. |
| Proxy.DupResponseWriter.SetHeaders | pkg/proxy/dupresponsewriter.go:70-83 | Each sink's headers become its old headers overridden by every local header key and its value list. |
| Proxy.BodyAppend | pkg/proxy/dupresponsewriter.go:44-54 | The body produced by a series of handler calls grows by a call's data exactly when that call is a Write. |
| Proxy.ParallelHandler.constructor | pkg/proxy/respcloneprocessor.go:24-31 | A new handler has no queue: nothing is launched yet. |
| Proxy.ParallelHandler.LaunchParallelProc | pkg/proxy/respcloneprocessor.go:50-64 | The first launch creates an empty queue. A later launch keeps the existing one. |
| Proxy.Serve | pkg/proxy/dupresponsewriter.go:44-83 | The handler's calls run one after another on a fresh duplicating writer, and the client meets `failures[i]` on the i-th call. Afterwards the recorder holds `RecorderBody`: the data of every Write the client took without error. The client's body has grown by `ClientBody`: from each Write, the prefix the connection accepted. The headers, status log and recorder status are as ServeHTTP states, and the connection is left with the last call's outcome. |
| Proxy.FlushAppend | pkg/proxy/dupresponsewriter.go:44-66 | One more call flushes the headers exactly when an earlier call did or this call does. The first flushing code is fixed once some call has flushed; before that it is the new call's own code. |
| Proxy.ClientBodyHealthy | pkg/proxy/dupresponsewriter.go:47-52 | A client that never fails takes exactly the body the handler wrote. |
| Proxy.RecorderBodyHealthy | pkg/proxy/dupresponsewriter.go:47-52 | With a client that never fails, the recorder gets the whole body too. |
| Proxy.RecorderBodyFailsFrom | pkg/proxy/dupresponsewriter.go:47-52 | A client that takes the first k calls and fails on every later one leaves in the recorder exactly the Writes among those k calls. k = 0 gives an empty recorder; k = the number of calls gives the whole body. |
| Proxy.DupResponseWriter.Apply | pkg/proxy/dupresponsewriter.go:44-83 | One handler call on the duplicating writer. Setting a header changes only the local headers. The first WriteHeader or Write copies the local headers into both sinks, logs its status on the client and latches it on the recorder. A Write then latches 200 and, with a healthy client, adds its bytes to both bodies; with a failing client the recorder's data is unchanged. The client's body grows by what its connection takes: the whole Write when healthy, the allowance-sized prefix when failing. |
| Proxy.ParallelHandler.ServeHTTP | pkg/proxy/respcloneprocessor.go:37-46 | The handler's calls go through a duplicating writer over the client and a fresh recorder. The client meets `failures[i]` on the i-th call. The client and the recorder both get the headers set before the first flush. The recorder gets the Writes the client took without error. The client gets, from each Write, the prefix its connection accepted. A client that never fails gives both the whole body. One that fails from call k on leaves in the recorder the body of the first k calls. The client's status log gains the code of the first flushing call, once, and only if some call flushes. The recorder's status is that code, or else 200 when some Write reached a healthy client. The recorder is queued only after a launch. |
| LegacyProxy.RecorderChannel.constructor | cmd/liveapichecker/dupresponsewriter.go:65-72 | A new channel has carried nothing. |
| LegacyProxy.ResponseWriterRecorder.constructor | cmd/liveapichecker/dupresponsewriter.go:74-80 | A new recorder has status 0, no headers, no data, and is bound to its request and channel. |
| LegacyProxy.ResponseWriterRecorder.Write | cmd/liveapichecker/dupresponsewriter.go:86-94 | Latches 200 and replaces the data with a copy of this chunk alone. It sends the recorder on the channel once per call and reports every byte. |
| LegacyProxy.ResponseWriterRecorder.WriteHeader | cmd/liveapichecker/dupresponsewriter.go:96-101 | The status is set only while it is still 0. |
| LegacyProxy.WriteAll | cmd/liveapichecker/dupresponsewriter.go:86-94 | n writes send the recorder n times, and the recorder is left holding only the last chunk. |
| LegacyProxy.DupResponseWriter.constructor | cmd/liveapichecker/dupresponsewriter.go:14-20 | A new writer has the two sinks, no local headers, and has not written the header. |
| LegacyProxy.DupResponseWriter.Write | cmd/liveapichecker/dupresponsewriter.go:26-38 | Like package proxy's writer. When the client accepts, the recorder holds this chunk alone and one more send is made. |
| LegacyProxy.DupResponseWriter.WriteHeader | cmd/liveapichecker/dupresponsewriter.go:40-48 | Only the first call copies the headers into both sinks, sends the status to the client and latches it on the recorder. |
| LegacyProxy.DupResponseWriter.SetHeaders | cmd/liveapichecker/dupresponsewriter.go:50-63 | Each sink's headers become its old headers overridden by the local ones. |
| QueryParams.FullCoverageMinVariants.MinVariantsFor | pkg/analyzer/coverage_queryparams.go:35-49 | Gives the configured count for each of the five locations, and 0 for any other location string. |
| QueryParams.ApplyConfigConcat | pkg/analyzer/coverage_queryparams.go:60-62 | Configuration functions apply in order, so a later function overrides an earlier one. |
| QueryParams.NewFullCoverageMinVariants | pkg/analyzer/coverage_queryparams.go:53-64 | Starts from query, path, header and body at 2 and form at 0, then applies each configuration function in order. |
| QueryParams.ParamTableOfKeys | pkg/analyzer/coverage_queryparams.go:176-190 | The table has an entry for (location, name) exactly when some declared parameter has that location and name. |
| QueryParams.ParamTableOfLastWins | pkg/analyzer/coverage_queryparams.go:176-190 | Each entry starts empty. Its threshold is the enum size when the enum is non-empty, else the configured count for the location. Empty values are allowed when the parameter is not required. The last declaration of a (location, name) wins. |
| QueryParams.BuildParamTable | pkg/analyzer/coverage_queryparams.go:176-190 | The loop builds exactly the declared-parameter table. |
| QueryParams.NewParamsCoverageChecker | pkg/analyzer/coverage_queryparams.go:164-192 | A nil operation is an error. Otherwise the result is a fresh checker holding the table of the operation's parameters. |
| QueryParams.LimitIsOneParam | pkg/analyzer/coverage_queryparams_test.go:30-31 | An operation declaring only `limit` in the query has exactly one parameter entry. |
| QueryParams.FlattenOrderIndependent | pkg/analyzer/coverage_queryparams.go:196-217 | A parameter's flattened value does not depend on the order in which its values arrive. |
| QueryParams.FlattenLength | pkg/analyzer/coverage_queryparams.go:203-216 | With two or more values, the result is exactly as long as the capacity computed before sorting: every value's characters (code points, not bytes) plus one ',' per value. |
| QueryParams.FlattenStringSlice | pkg/analyzer/coverage_queryparams.go:196-217 | Gives "" for no values and the value itself for one. For more values it gives the sorted values, each followed by ','. It sorts its argument in place (a permutation) when it has two or more values and otherwise leaves it alone. |
| QueryParams.RecordedGrows | pkg/analyzer/coverage_queryparams.go:91-130 | Recording keeps every entry and threshold, and only grows covered sets. Every declared query name in the request gains its flattened value. Undeclared names and the other four locations are untouched. |
| QueryParams.RecordLimitFive | pkg/analyzer/coverage_queryparams_test.go:33-34 | Recording `?limit=5` against a declared `limit` covers exactly the value "5". |
| QueryParams.ParamsCoverageChecker.Empty | pkg/analyzer/coverage.go:40 | The fallback checker has no parameters. |
| QueryParams.ParamsCoverageChecker.FromTable | pkg/analyzer/coverage_queryparams.go:185-191 | The checker holds the given table. |
| QueryParams.RecordInQuery | pkg/analyzer/coverage_queryparams.go:91-102 | The query entries become the specification `RecordQuery`: each declared name present in the query gains its flattened values, and nothing else changes (RecordedGrows). An empty entry map is returned as it is. |
| QueryParams.ParamsCoverageChecker.Record | pkg/analyzer/coverage_queryparams.go:124-130 | The new table is the specification `Recorded` applied to the old one; RecordedGrows states what that means. |
| QueryParams.ParamsCoverageChecker.NumParams | pkg/analyzer/coverage_queryparams.go:155-161 | Counts the distinct (location, name) entries. |
| QueryParams.ReportSize | pkg/analyzer/coverage_queryparams.go:132-153 | A report has exactly as many entries as the checker has parameters. |
| QueryParams.ParamsCoverageChecker.Report | pkg/analyzer/coverage_queryparams.go:132-153 | Lists every (location, name) entry exactly once, in an unspecified order. Each entry carries the name and each covered value once, with the threshold left at 0. |
| Coverage.NormalizeBasePath | pkg/analyzer/coverage.go:80-87 | One trailing '/' is dropped, and "." (an unset base path) becomes "/". So "/" becomes "", "./" becomes "/", and a path without a trailing slash is kept. |
| Coverage.IntSetToSlice | pkg/analyzer/coverage.go:197-207 | Lists the map's keys, each once, in strictly ascending order. |
| Coverage.EndpointCovTracker.Report | pkg/analyzer/coverage.go:51-59 | As written: the line carries the given label and the tracker's template. It lists every documented code, observed or not, and the undocumented codes, each sorted, with a report of its parameters. |
| Coverage.ObservedOnly | pkg/analyzer/coverage.go:55 | Keeps exactly the documented codes that have been observed. |
| Coverage.EndpointCovTracker.ReportObserved | pkg/analyzer/coverage.go:51-59 | As intended: like Report, but the status codes are exactly the observed documented codes, sorted. |
| Coverage.UnobservedCodeReported | pkg/analyzer/coverage.go:55 | As written: a tracker documenting 200 that saw only 404 reports status codes [200] and undocumented [404]. |
| Coverage.UnobservedCodeOmitted | pkg/analyzer/coverage.go:55 | As intended, the same tracker reports no status codes and undocumented [404]. |
| Coverage.QueryIgnoredAsWritten | pkg/analyzer/coverage.go:121-137 | As written: whatever the status code, observing a response leaves a declared query parameter `limit` with no covered values. |
| Coverage.NewEndpointCoverageTracker | pkg/analyzer/coverage.go:36-48 | A new tracker has the template, no codes, and a fresh parameter checker under the default thresholds. With no operation it falls back to the empty checker. |
| Coverage.SeededAllConsistent | pkg/analyzer/coverage.go:93-103 | An engine whose trackers are all seeded from operations has every tracker consistent. |
| Coverage.ObserveKeepsAllConsistent | pkg/analyzer/coverage.go:131-136 | Observing a code on one tracker keeps every tracker of the engine consistent. |
| Coverage.SeededConsistent | pkg/analyzer/coverage.go:93-103 | A freshly filed tracker has exactly the documented codes, all unseen, and no undocumented codes. |
| Coverage.ObserveMarks | pkg/analyzer/coverage.go:131-136 | `Observe`, the effect of one recorded status on a tracker: one observation keeps the documented set. A documented code becomes covered; any other code becomes undocumented. Documented and undocumented codes stay disjoint. |
| Coverage.ObserveIdempotent | pkg/analyzer/coverage.go:131-136 | Observing the same status twice is observing it once. |
| Coverage.ObserveAllEffect | pkg/analyzer/coverage.go:131-136 | After a run of observations, a documented code is covered exactly when it was covered before or occurred in the run. The undocumented codes are the old ones plus the run's undocumented codes. |
| Coverage.ObserveAllOrderIndependent | pkg/analyzer/coverage.go:131-136 | Runs with the same codes, in any order or multiplicity, leave the same tracker. |
| Coverage.ObserveScenario | pkg/analyzer/coverage.go:131-136 | Observing 200 then 418 on a tracker documenting 200 and 404 gives {200 covered, 404 not}, with 418 undocumented. |
| Coverage.SeedStatusCodes | pkg/analyzer/coverage.go:98-102 | Every documented status code is entered as not yet seen; no other code is entered. |
| Coverage.FileOperation | pkg/analyzer/coverage.go:93-106 | Filing one operation keeps the matcher valid. The operation's joined template joins the matcher's records under its upper-cased method, and its seeded tracker joins the trackers. |
| Coverage.FileMethod | pkg/analyzer/coverage.go:92-107 | Filing all operations of one method adds that method's whole row of (method, path) pairs to the filed set. |
| Coverage.NewTables | pkg/analyzer/coverage.go:79-117 | Produces the normalised base path and a built matcher. Every operation is filed in the matcher and has a tracker under its joined path and upper-cased method. Every tracker is a seeded tracker of one of the operations. |
| Coverage.NewCoverageChecker | pkg/analyzer/coverage.go:79-117 | The engine is valid: routers are built from the records, every stored template has a tracker, and every tracker is consistent (documented and undocumented codes disjoint). The base path is normalised, and every operation is indexed as in NewTables. |
| Coverage.CoverageChecker.constructor | pkg/analyzer/coverage.go:111-116 | The struct literal: the engine holds the given matcher, cleaned base path and tracker map. The `specDoc` field is not modelled: nothing in the core reads it after construction. |
| Coverage.CoverageChecker.ProcessRecordedResponse | pkg/analyzer/coverage.go:121-137 | The engine stays valid, so every tracker stays consistent. No match leaves every tracker unchanged. A match always finds a tracker, and exactly that tracker observes the recorded status. As written, no parameter checker records the query. |
| Coverage.CoverageChecker.MarkStatus | pkg/analyzer/coverage.go:129-136 | The engine stays valid. The tracker at the given entry observes the code, and no other entry changes. |
| Coverage.CoverageChecker.Ingest | pkg/analyzer/coverage.go:121-137 | As intended: the engine stays valid and the matched tracker observes the status as above. Its parameter checker records the request's query, as coverage_queryparams.go:124-130 does. Every other parameter checker is unchanged, and so is everything on a miss. |
| Coverage.CoverageChecker.Lines | pkg/analyzer/coverage.go:142-146 | Gives one line per (path, method) tracker, each exactly once, describing that tracker. As written, a line is labelled with the path and lists every documented code. Corrected, it is labelled with the method and lists only observed documented codes. |
| Coverage.CoverageChecker.Report | pkg/analyzer/coverage.go:139-149 | As written: starts with one nil per path template. Then every tracker follows exactly once, with its method field set to the path template. |
| Coverage.CoverageChecker.ReportEndpoints | pkg/analyzer/coverage.go:139-149 | As intended: exactly one line per tracker, labelled with its method and listing only the observed documented codes, and nothing else. |

## Left out

- Strings are sequences of Unicode characters, not Go's byte strings. A query value that is not valid UTF-8 (such as `?a=%FF`) cannot be represented, and lengths count characters where Go's len counts bytes.
- Text.ToUpper: covers ASCII letters only. strings.ToUpper also maps non-ASCII letters; HTTP method names are ASCII.
- The denco trie router is not part of this model. Its Build and Lookup are represented by the router's records and the `lookup` parameter. The only property assumed of `lookup` is `Honest`. Build errors are ignored, as in the code.
- path.Clean and path.Join are not modelled. They are the parameters `clean` and `join`. The engine is given the base path already cleaned.
- MatchedPath.Str (pkg/pathmatcher/pathmatcher.go:19-21) only formats a log line and is not modelled.
- DumpResultsToJSONString and DumpResultsToFile (pkg/analyzer/coverage.go:153-195) are left out: JSON encoding and file I/O.
- Logging with fmt.Printf is left out.
- The read/write mutex of CoverageChecker and the consumer goroutine of ParallelHandler are left out, because the model is sequential.
  - The handler's channel is the recorder queue.
  - Its capacity of 300 and blocking sends are left out.
  - The behaviour of a nil channel is reduced to "not queued".
- Trackers are values, not pointers. No two entries of the engine share a tracker, so replacing an entry has the same effect as updating it in place.
- An entry in the operation map that is a nil operation would make NewCoverageChecker panic. The model takes the operation values as present.
- Nil and empty maps, slices and buffers are not told apart: a nil data buffer that Write replaces has the same contents as an appended empty one. Capacity hints (make with a capacity, Grow) are not modelled.
- The Header() accessors of both recorders and both writers return the header map by reference. They carry no contract; callers change headers through the map, which the model reflects by updating the `headers` field.
- recordInPath, recordInHeader, recordInBody and recordInForm do nothing in the code. The model gives no extraction for those locations; `Recorded` leaves them unchanged.
- The primary-then-secondary order of the duplicating writer's calls is expressed only by statement order. The model has no interleaving that could observe it.
- The files reporter.go, main.go and proxy.go of the command are not part of this model. Neither is the HTTP forwarding done by the reverse proxy. The forwarding handler is the sequence of writer calls given to `ServeHTTP`.

## Findings

| source | as written | input that shows it | evidently intended | confidence | as-written member | corrected member |
|---|---|---|---|---|---|---|
| pkg/pathmatcher/pathmatcher.go:68 | Each captured parameter is set to `mp[p.Value]`, the map's entry for the captured value, which is always "" | `GET /pets/42` against the template `/pets/{id}` gives id = "" | Each captured name is set to its captured value, giving id = "42" | not executed | PathMatch.AsWrittenParams | PathMatch.CapturedParams |
| pkg/analyzer/coverage.go:141-144 | The slice is made with length len(covered) and then appended to. The range variable named `method` is the path key. | Any engine with one tracker reports [nil, {Method: "/pets", ...}] | One entry per tracker, with its HTTP method in the Method field | not executed | Coverage.CoverageChecker.Report | Coverage.CoverageChecker.ReportEndpoints |
| pkg/analyzer/coverage.go:55 | `StatusCodes` is `intSetToSlice(e.statusCodes)`, the keys of the map of documented codes, whether observed or not | A tracker documenting only 200 that sees one response with 404 reports StatusCodes [200] (lemma UnobservedCodeReported) | Only the documented codes observed, giving [] (lemma UnobservedCodeOmitted) | not executed | Coverage.EndpointCovTracker.Report | Coverage.EndpointCovTracker.ReportObserved |
| pkg/analyzer/coverage.go:121-137 | The response's status is recorded, but `e.params.Record` is never called, so no query value is ever recorded | `GET /pets?limit=5` on an operation declaring `limit` leaves `limit` with no covered values (lemma QueryIgnoredAsWritten) | The matched tracker's parameter checker records the query, so `limit` covers "5" (RecordLimitFive) | not executed | Coverage.CoverageChecker.ProcessRecordedResponse | Coverage.CoverageChecker.Ingest |

The engine never reads the captured parameter map, so the first finding does not change coverage. `PathMatcher.LookupRoute` keeps the code's behaviour, and `CapturedParamsLastWins` proves the intended map correct. The second and third findings affect only the report. `ReportEndpoints` is the corrected report, proved to list each tracker exactly once under its method, with only the observed documented codes. The fourth finding means parameter coverage never grows as written. `Ingest` is the corrected ingestion, proved to record the query on the matched tracker.
