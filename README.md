# Gateway notifiers

A Dafny model of the request-annotation logic of the gateway's notifiers
(`gateway/handlers/notifiers.go`). After every proxied request the gateway calls
`Notify(method, URL, originalURL, statusCode, event, duration)` on its notifiers.
There are three of them:

- `PrometheusServiceNotifier` counts and times calls to the gateway's own endpoints.
  The label is the path with trailing slashes removed (`urlToLabel`).
- `PrometheusFunctionNotifier` records function invocations.
  - It takes the function name from a `/function/<name>/...` URL (`getServiceName`).
  - It looks up the function's infra type from the control plane (`fetchInfraType`).
  - It appends the default namespace to a name without a `.`.
  - It updates the started counter, the invocation counter or the duration histogram,
    depending on the event.
- `LoggingNotifier` writes one line per completed request.

The project has one module per concern:

| module | file | contents |
|---|---|---|
| `Wrappers` | `wrappers.dfy` | `Option` |
| `GoStrings` | `go_strings.dfy` | The parts of Go's `strings` and `strconv` the code uses: `HasPrefix`, `TrimRight`, `TrimLeft` and `Trim` with a cutset, `TrimSpace` over the `unicode.IsSpace` characters, and the decimal rendering `Itoa` with a reference decoder `ParseInt`. |
| `Routing` | `routing.dfy` | `urlToLabel`, a model of the function-route matcher, `getServiceName`, and the namespace suffix. |
| `InfraType` | `infra_type.dfy` | A JSON datatype and the annotation lookup. Also the whole of `fetchInfraType`, with the credential files, the environment variable and the HTTP exchange as inputs (`LookupWorld`). |
| `Instruments` | `instruments.dfy` | Prometheus counter and histogram vectors. Each is a class whose `cells` map goes from label tuples to a count, or to the sequence of observed durations. |
| `Notifiers` | `notifiers.dfy` | The three notifiers. |

The function notifier's `Notify` has these properties:

- It does the lookup for every event, with the raw name (lines 56-57).
- It appends the namespace before branching on the event (lines 58-62).
- So the started counter is incremented at the suffixed name (line 77), just like the other two instruments.
- The lookup can end the process instead of returning a label:
  - `log.Fatalln` after a transport or body-read failure gives `Aborted`.
  - A failed type assertion on the reply gives `Panicked`.
  - `SetBasicAuth` on the nil request that a rejected URL leaves behind also gives `Panicked`.

  In all three cases no instrument changes, and the model returns the halt instead of a label.

## Model

| member | source | states |
|---|---|---|
| GoStrings.TrimRight | gateway/handlers/notifiers.go:39 | The result is a prefix of the input. The removed suffix is made of cutset characters only. The result does not end in one. |
| GoStrings.Trim | gateway/handlers/notifiers.go:97 | The result does not start or end with a cutset character. It is empty exactly when the input is made of cutset characters only. An input whose ends are already outside the cutset comes back unchanged. |
| GoStrings.TrimKeepsMiddle | gateway/handlers/notifiers.go:97 | The result of `Trim` is the stretch of the input that starts where `TrimLeft` stops. Only cutset characters come before it and after it. |
| GoStrings.TrimSpace | gateway/handlers/notifiers.go:113 | The trimmed credentials neither start nor end with white space. They are empty exactly when the file held only white space. |
| GoStrings.TrimSpaceKeepsMiddle | gateway/handlers/notifiers.go:113 | The trimmed credential is the stretch of the file's text that starts after its leading white space. Only white space comes before it and after it. |
| GoStrings.NatToDecimal | gateway/handlers/notifiers.go:30 | Decimal digits only, never empty, no leading zero, and `"0"` exactly for zero. |
| GoStrings.Itoa | gateway/handlers/notifiers.go:71 | Never empty. It starts with `-` exactly for negative codes. |
| GoStrings.ParseItoa | gateway/handlers/notifiers.go:30 | Reading the rendered status code back gives the code: the label is a faithful encoding of it. |
| GoStrings.ItoaInjective | gateway/handlers/notifiers.go:71 | Distinct status codes get distinct `code` label values. |
| Routing.UrlToLabel | gateway/handlers/notifiers.go:37-45 | Never `""`. It is `"/"` exactly when the path is empty or all `/`. Otherwise it is the path minus its trailing slashes and does not end in `/`. |
| Routing.UrlToLabelIdempotent | gateway/handlers/notifiers.go:37-45 | Labelling a label changes nothing. |
| Routing.FunctionMatcher | gateway/handlers/notifiers.go:86-92 | Either no match, or three elements. The first is a prefix of the URL made of `/function/`, the name and the rest of the path. The name is non-empty and free of `/` and `?`. The rest is empty or starts with `/`. Only the end of the URL or a `?` follows the match. |
| Routing.GetServiceName | gateway/handlers/notifiers.go:82-98 | `""` whenever the URL does not start with `/function/`. The result never begins or ends with `/`. |
| Routing.GetServiceNameWithoutMatch | gateway/handlers/notifiers.go:93-97 | A URL the matcher does not split into three elements gives `""`. |
| Routing.GetServiceNameOfMatch | gateway/handlers/notifiers.go:93-97 | On a match, the name is the matcher's element at `nameIndex`, which the trim leaves unchanged. |
| Routing.GetServiceNameSegment | gateway/handlers/notifiers.go:82-98 | A non-empty name is the segment right after `/function/`. It is followed by the end of the URL, a `/` or a `?`. |
| Routing.GetServiceNameOfRoute | gateway/handlers/notifiers.go:86-97 | Every URL `/function/<name>[/<rest>][?<query>]` with a non-empty `name` free of `/` and `?` yields `name`. |
| Routing.GetServiceNameExample | gateway/handlers/notifiers.go:86-87 | `/function/xyz/rest/of/path?q=a` yields `xyz`. |
| Routing.WithNamespace | gateway/handlers/notifiers.go:58-62 | The name is kept exactly when the namespace is empty or the name contains `.`. Otherwise `.` and the namespace are appended. |
| Routing.WithNamespaceKeepsName | gateway/handlers/notifiers.go:58-62 | The original name is always a prefix of the suffixed one. |
| Routing.WithNamespaceIdempotent | gateway/handlers/notifiers.go:58-62 | Suffixing a suffixed name changes nothing. |
| InfraType.ExtractInfraType | gateway/handlers/notifiers.go:126-138 | The only failure is a panic. A non-empty label is the `annotations.prometheus_labels` string of a top-level object. |
| InfraType.ExtractPresentLabel | gateway/handlers/notifiers.go:130-135 | A string `prometheus_labels` inside an `annotations` object is the label returned. |
| InfraType.ExtractAnnotatedReply | gateway/handlers/notifiers.go:126-136 | Whatever other members the reply and its annotations hold, a reply built around label `s` yields `s`. |
| InfraType.ExtractMissingLabel | gateway/handlers/notifiers.go:126-138 | The result is `""` when the body did not parse, is not an object, or lacks `annotations` or `prometheus_labels`. |
| InfraType.ExtractWrongType | gateway/handlers/notifiers.go:131-134 | A non-object `annotations`, or a non-string label, panics. |
| InfraType.LookupRequest | gateway/handlers/notifiers.go:101-113 | A request exists exactly when both credential files were read. Its URL is `serverlessurl`, then `/system/function/`, then the raw service name. The user and the password are the trimmed file contents. |
| InfraType.ReplyOutcome | gateway/handlers/notifiers.go:112-124 | A rejected URL gives a panic. A transport or body-read failure gives an abort. A reply gives the label extracted from its body. |
| InfraType.FetchInfraType | gateway/handlers/notifiers.go:100-138 | An unreadable credential file gives `""`. Otherwise the outcome is what becomes of the request `LookupRequest` builds for this service. |
| InfraType.FetchInfraTypeOfService | gateway/handlers/notifiers.go:101-124 | With both files readable, the outcome is what becomes of the GET of `serverlessurl` + `/system/function/` + the service name, with the trimmed credentials. |
| InfraType.LookupRequestDistinguishesServices | gateway/handlers/notifiers.go:112 | Two different service names are looked up at two different URLs. |
| Instruments.IncrementedCount | gateway/handlers/notifiers.go:33 | An increment adds exactly one at its own tuple and leaves every other tuple's count unchanged. |
| Instruments.ObservedSeries | gateway/handlers/notifiers.go:34 | An observation is appended at its own tuple. Every other tuple keeps its series. |
| Instruments.CounterVec.Inc | gateway/handlers/notifiers.go:33 | The new cells are the old ones with one increment at the given tuple. The tuple must have one value per label name. |
| Instruments.HistogramVec.Observe | gateway/handlers/notifiers.go:34 | The new cells are the old ones with the duration appended at the given tuple. |
| Notifiers.ServiceLabelsShared | gateway/handlers/notifiers.go:30-34 | Two calls share a cell exactly when they have the same method, the same path up to trailing slashes, and the same status code. |
| Notifiers.PrometheusServiceNotifier.Notify | gateway/handlers/notifiers.go:29-35 | For every event: one increment and one observation, both at `(method, urlToLabel(URL), decimal status)`. Nothing else changes. |
| Notifiers.PrometheusFunctionNotifier.Notify | gateway/handlers/notifiers.go:55-80 | The lookup uses the raw name, for every event, and a halted lookup changes nothing. "completed": one observation at `(suffixed name, infra type)` and one increment at `(suffixed name, decimal status)`, started counter untouched. "started": one increment at the suffixed name, nothing else. Any other event changes nothing. |
| Notifiers.PrometheusFunctionNotifier.Record | gateway/handlers/notifiers.go:58-79 | The part of `Notify` after the lookup: the same per-event updates, given the raw name and the infra type. |
| Notifiers.ForwardRequest | gateway/handlers/notifiers.go:55-80 | A "started" call, then a "completed" call, for one request. Each call does its own lookup. If the first lookup halts, nothing changes and there is no second call. Otherwise the started counter gains one at the suffixed name. If the second lookup halts too, nothing else changes. Otherwise the invocation counter gains one at `(suffixed name, status)`, and the histogram gains the duration at `(suffixed name, infra type of the second lookup)`. |
| Notifiers.LoggingNotify | gateway/handlers/notifiers.go:148-152 | Exactly one line for a completed request and none for any other event. The line is `Forwarded [<method>] to <original URL> - [`, then the decimal status code, then `] - <seconds>s seconds`. |

## Left out

- The file reads of `/var/secrets/basic-auth-password` and `/var/secrets/basic-auth-user`, the `serverlessurl` environment variable, and the HTTP exchange are not performed. They are inputs (`LookupWorld`).
- The control plane's answer is an input. `world.reply` maps each request that could be sent to what becomes of it, and `FetchInfraType` applies it to the request built for the service.
- The console messages of `fetchInfraType` on an unreadable file are not modelled. Neither are the bytes-to-string conversion of the file and body contents (they are taken as strings already).
- `encoding/json` parsing is not modelled. The parsed value, or a parse failure, is an input. A parse failure leaves the map nil, which reads as empty.
- The compiled `functionMatcher` regular expression, `hasPathCount` and `nameIndex` are defined outside `notifiers.go`. They are not part of this model. `Routing.FunctionMatcher` is a matcher consistent with the comment at lines 86-90. The constants are 3 and 1, as that comment describes.
- `Routing.FunctionMatcher`: element 0 of its match stops before any `?`. The comment at line 89 says element 0 is the same as the URL itself, query included. Nothing reads element 0, so the service name is unaffected.
- Durations are integer nanoseconds (`time.Duration`). `duration.Seconds()` and its floating-point observation are not modelled. The `%f` rendering in the log line is a string parameter of `LoggingNotify`, and the timestamp that `log.Printf` prepends is left out.
- Prometheus registry internals, label validation, metric options, and thread safety of concurrent `Notify` calls are left out. Each instrument is a single-threaded map.
- `Instruments.CounterVec.Inc` and `Instruments.HistogramVec.Observe` do not model the panic Prometheus raises on a wrong number of label values. The model requires the right number instead, and every call site provides it.
- The `HTTPNotifier` interface is not modelled as a type. Each notifier is modelled on its own.
- `gateway/handlers/metrics.go` is not part of this model:
  - `trackInvocation` repeats the invocation-counter update modelled at lines 71-75;
  - `trackTime` reads the wall clock;
  - `trackTimeExact` is a raw float conversion.
- The `log.Fatalln` exit and the panics are modelled as a `Halt` outcome that leaves the metrics untouched. Their effect on the rest of the process is not modelled.
