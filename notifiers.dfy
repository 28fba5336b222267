/**
  The three implementations of `HTTPNotifier.Notify(method, URL, originalURL,
  statusCode, event, duration)`: which instrument each one updates, at which tuple of
  label values, for each event kind.
 */
module Notifiers {
  import opened Wrappers
  import opened GoStrings
  import opened Routing
  import opened InfraType
  import opened Instruments

  const Completed: string := "completed"
  const Started: string := "started"

  /** Label names of `service_calls_total` and `service_calls_seconds`. */
  const ServiceLabelNames: seq<string> := ["method", "path", "code"]
  /** Label names of `functions_seconds`. */
  const FunctionsSecondsLabelNames: seq<string> := ["function_name", "infra_type"]
  /** Label names of `invocation_total`. */
  const InvocationLabelNames: seq<string> := ["function_name", "code"]
  /** Label names of `invocation_started_total`. */
  const StartedLabelNames: seq<string> := ["function_name"]

  /** The tuple a control-plane call is recorded under. */
  function ServiceLabels(httpMethod: string, url: string, statusCode: int): LabelValues {
    [httpMethod, UrlToLabel(url), Itoa(statusCode)]
  }

  /**
    Two control-plane calls share a cell exactly when they have the same method, the
    same path once trailing slashes are ignored, and the same status code.
   */
  lemma ServiceLabelsShared(m1: string, u1: string, c1: int, m2: string, u2: string, c2: int)
    ensures ServiceLabels(m1, u1, c1) == ServiceLabels(m2, u2, c2)
        <==> m1 == m2 && UrlToLabel(u1) == UrlToLabel(u2) && c1 == c2
  {
    if Itoa(c1) == Itoa(c2) {
      ItoaInjective(c1, c2);
    }
  }

  /** The tuple of `invocation_total`: function name and decimal status code. */
  function InvocationKey(name: string, statusCode: int): LabelValues {
    [name, Itoa(statusCode)]
  }

  /** The tuple of `invocation_started_total`: the function name alone. */
  function StartedKey(name: string): LabelValues {
    [name]
  }

  /** The tuple of `functions_seconds`: function name and infra type. */
  function HistogramKey(name: string, infraType: string): LabelValues {
    [name, infraType]
  }

  /** `PrometheusServiceNotifier`: metrics for the gateway's own endpoints. */
  class PrometheusServiceNotifier {
    const counter: CounterVec      // service_calls_total
    const histogram: HistogramVec  // service_calls_seconds

    ghost predicate Valid() {
      && counter.labelNames == ServiceLabelNames
      && histogram.labelNames == ServiceLabelNames
    }

    constructor (counter: CounterVec, histogram: HistogramVec)
      requires counter.labelNames == ServiceLabelNames
      requires histogram.labelNames == ServiceLabelNames
      ensures Valid()
      ensures this.counter == counter && this.histogram == histogram
    {
      this.counter := counter;
      this.histogram := histogram;
    }

    /**
      Whatever the event, one increment and one observation, both at
      `(method, urlToLabel(URL), decimal status)`; no other cell changes.
      `originalURL` and `event` are not consulted.
     */
    method Notify(httpMethod: string, url: string, originalURL: string, statusCode: int,
                  event: string, duration: Duration)
      requires Valid()
      modifies counter, histogram
      ensures Valid()
      ensures var key := ServiceLabels(httpMethod, url, statusCode);
        && counter.cells == Incremented(old(counter.cells), key)
        && histogram.cells == Observed(old(histogram.cells), key, duration)
    {
      var code := Itoa(statusCode);
      var path := UrlToLabel(url);
      counter.Inc([httpMethod, path, code]);
      histogram.Observe([httpMethod, path, code], duration);
    }
  }

  /** `PrometheusFunctionNotifier`: metrics for function invocations. */
  class PrometheusFunctionNotifier {
    const histogram: HistogramVec  // functions_seconds
    const invocation: CounterVec   // invocation_total
    const started: CounterVec      // invocation_started_total
    /** Default namespace of the functions; may be empty. */
    const functionNamespace: string

    ghost predicate Valid() {
      && invocation != started
      && histogram.labelNames == FunctionsSecondsLabelNames
      && invocation.labelNames == InvocationLabelNames
      && started.labelNames == StartedLabelNames
    }

    constructor (histogram: HistogramVec, invocation: CounterVec, started: CounterVec,
                 functionNamespace: string)
      requires invocation != started
      requires histogram.labelNames == FunctionsSecondsLabelNames
      requires invocation.labelNames == InvocationLabelNames
      requires started.labelNames == StartedLabelNames
      ensures Valid()
      ensures this.histogram == histogram && this.invocation == invocation && this.started == started
      ensures this.functionNamespace == functionNamespace
    {
      this.histogram := histogram;
      this.invocation := invocation;
      this.started := started;
      this.functionNamespace := functionNamespace;
    }

    /**
      Every event first looks up the infra type of the raw (unsuffixed) function name
      (`FetchInfraType`). When the lookup halts (`halt`), no instrument changes. Otherwise the name gets the
      namespace suffix, and then:
      "completed" adds one observation at `(name, infra type)` and one increment at
      `(name, decimal status)`, and leaves the started counter alone;
      "started" adds one increment at `(name)` and nothing else;
      any other event changes nothing.
     */
    method Notify(httpMethod: string, url: string, originalURL: string, statusCode: int,
                  event: string, duration: Duration, world: LookupWorld)
      returns (halt: Option<Halt>)
      requires Valid()
      modifies histogram, invocation, started
      ensures Valid()
      ensures var lookup := FetchInfraType(GetServiceName(originalURL), world);
        halt == if lookup.Halted? then Some(lookup.halt) else None
      ensures halt.Some? || (event != Completed && event != Started) ==>
        unchanged(histogram, invocation, started)
      ensures halt.None? && event == Completed ==>
        var name := WithNamespace(GetServiceName(originalURL), functionNamespace);
        var infra := FetchInfraType(GetServiceName(originalURL), world).value;
        && histogram.cells == Observed(old(histogram.cells), HistogramKey(name, infra), duration)
        && invocation.cells == Incremented(old(invocation.cells), InvocationKey(name, statusCode))
        && unchanged(started)
      ensures halt.None? && event == Started ==>
        var name := WithNamespace(GetServiceName(originalURL), functionNamespace);
        && started.cells == Incremented(old(started.cells), StartedKey(name))
        && unchanged(histogram, invocation)
    {
      assert Started != Completed by { assert |Started| != |Completed|; }
      var serviceName := GetServiceName(originalURL);
      var infraType := FetchInfraType(serviceName, world);
      if infraType.Halted? {
        halt := Some(infraType.halt);
        return;
      }
      halt := None;
      Record(serviceName, infraType.value, statusCode, event, duration);
    }

    /**
      The part of `Notify` after a lookup that returned `infraType`: the name gets the
      namespace suffix, then the event decides which instruments change.
     */
    method Record(serviceName: string, infraType: string, statusCode: int, event: string,
                  duration: Duration)
      requires Valid()
      modifies histogram, invocation, started
      ensures Valid()
      ensures event != Completed && event != Started ==> unchanged(histogram, invocation, started)
      ensures event == Completed ==>
        var name := WithNamespace(serviceName, functionNamespace);
        && histogram.cells == Observed(old(histogram.cells), HistogramKey(name, infraType), duration)
        && invocation.cells == Incremented(old(invocation.cells), InvocationKey(name, statusCode))
        && unchanged(started)
      ensures event == Started ==>
        var name := WithNamespace(serviceName, functionNamespace);
        && started.cells == Incremented(old(started.cells), StartedKey(name))
        && unchanged(histogram, invocation)
    {
      var name := WithNamespace(serviceName, functionNamespace);
      if event == Completed {
        histogram.Observe(HistogramKey(name, infraType), duration);
        invocation.Inc(InvocationKey(name, statusCode));
      } else if event == Started {
        started.Inc(StartedKey(name));
      }
    }
  }

  /**
    One forwarded request as the proxy reports it: "started" before dispatch, then
    "completed". Each call does its own lookup (the credential files are read and the
    control plane asked again), so each has its own world. A halted "started" lookup
    ends the request with nothing recorded. Otherwise the started counter gains one
    at the suffixed name, and then, unless the "completed" lookup halts, the
    invocation counter gains one and the histogram one observation under the infra
    type that second lookup returned.
   */
  method ForwardRequest(n: PrometheusFunctionNotifier, httpMethod: string, url: string,
                        originalURL: string, statusCode: int, duration: Duration,
                        startedWorld: LookupWorld, completedWorld: LookupWorld)
    returns (startedHalt: Option<Halt>, completedHalt: Option<Halt>)
    requires n.Valid()
    modifies n.histogram, n.invocation, n.started
    ensures n.Valid()
    ensures var lookup := FetchInfraType(GetServiceName(originalURL), startedWorld);
      startedHalt == if lookup.Halted? then Some(lookup.halt) else None
    ensures startedHalt.Some? ==>
      completedHalt.None? && unchanged(n.histogram, n.invocation, n.started)
    ensures startedHalt.None? ==>
      var lookup := FetchInfraType(GetServiceName(originalURL), completedWorld);
      completedHalt == if lookup.Halted? then Some(lookup.halt) else None
    ensures startedHalt.None? ==>
      var name := WithNamespace(GetServiceName(originalURL), n.functionNamespace);
      n.started.cells == Incremented(old(n.started.cells), StartedKey(name))
    ensures startedHalt.None? && completedHalt.Some? ==> unchanged(n.histogram, n.invocation)
    ensures startedHalt.None? && completedHalt.None? ==>
      var name := WithNamespace(GetServiceName(originalURL), n.functionNamespace);
      var infra := FetchInfraType(GetServiceName(originalURL), completedWorld).value;
      && n.invocation.cells == Incremented(old(n.invocation.cells), InvocationKey(name, statusCode))
      && n.histogram.cells == Observed(old(n.histogram.cells), HistogramKey(name, infra), duration)
  {
    assert Started != Completed by { assert |Started| != |Completed|; }
    completedHalt := None;
    startedHalt := n.Notify(httpMethod, url, originalURL, statusCode, Started, 0, startedWorld);
    if startedHalt.None? {
      ghost var afterStarted := n.started.cells;
      completedHalt := n.Notify(httpMethod, url, originalURL, statusCode, Completed, duration, completedWorld);
      assert n.started.cells == afterStarted;
    }
  }

  /** The text before the status code in a log line. */
  function LogHead(httpMethod: string, originalURL: string): string {
    "Forwarded [" + httpMethod + "] to " + originalURL + " - ["
  }

  /** The text after the status code; `seconds` stands for the `%f` rendering of the duration. */
  function LogTail(seconds: string): string {
    "] - " + seconds + "s seconds"
  }

  /**
    `LoggingNotifier`: one line for a completed request, naming its method, original
    URL, decimal status code and duration; nothing for any other event.
   */
  function LoggingNotify(httpMethod: string, url: string, originalURL: string, statusCode: int,
                         event: string, seconds: string): (line: Option<string>)
    ensures line.Some? <==> event == Completed
    ensures line.Some? ==>
      var head := LogHead(httpMethod, originalURL);
      var code := Itoa(statusCode);
      && HasPrefix(line.value, head)
      && HasSuffix(line.value, LogTail(seconds))
      && |line.value| == |head| + |code| + |LogTail(seconds)|
      && line.value[|head|..|head| + |code|] == code
  {
    if event == Completed then
      var head, code, tail := LogHead(httpMethod, originalURL), Itoa(statusCode), LogTail(seconds);
      var text := head + code + tail;
      assert text[..|head|] == head;
      assert text[|head|..|head| + |code|] == code;
      assert text[|text| - |tail|..] == tail;
      Some(text)
    else None
  }
}
