/**
  The infra-type lookup (`fetchInfraType`): two credential files, one authenticated
  GET against the control plane, and the `annotations.prometheus_labels` string of the
  JSON reply. The files, the environment variable and the HTTP exchange are inputs
  (`LookupWorld`); what the code does with each of their outcomes is modelled,
  including the two ways the call never returns: `log.Fatalln` ends the process,
  and a failed type assertion or a nil request panics.
 */
module InfraType {
  import opened Wrappers
  import opened GoStrings

  /** A decoded JSON value. Numbers keep their literal text: no arithmetic is done on them. */
  datatype Json =
    | JNull
    | JBool(b: bool)
    | JNumber(literal: string)
    | JString(s: string)
    | JArray(items: seq<Json>)
    | JObject(members: map<string, Json>)

  /** What `json.Unmarshal` made of the reply body. */
  datatype Decoded = Unparsable | Parsed(value: Json)

  /** How a lookup can end without returning. */
  datatype Halt =
    | Aborted   // `log.Fatalln`: the process exits
    | Panicked  // a failed type assertion, or a method call on a nil request

  datatype InfraOutcome = Label(value: string) | Halted(halt: Halt)

  /** The fields of the GET request the lookup sends. */
  datatype Request = Request(url: string, user: string, password: string)

  datatype FileRead = Read(text: string) | Unreadable

  /** What becomes of a lookup request. */
  datatype Exchange =
    | MalformedUrl     // `http.NewRequest` rejected the URL and returned a nil request
    | TransportFailed  // `client.Do` returned an error
    | BodyUnreadable   // reading the response body failed
    | Replied(body: Decoded)

  /**
    Everything outside the process that the lookup consults: the `serverlessurl`
    environment variable, the two credential files, and what becomes of each request
    the lookup could send (`reply`: the URL check, the transport and the control
    plane's answer to that URL and those credentials).
   */
  datatype LookupWorld = LookupWorld(
    serverlessUrl: string,
    passwordFile: FileRead,
    userFile: FileRead,
    reply: Request -> Exchange)

  const AnnotationsKey: string := "annotations"
  const LabelsKey: string := "prometheus_labels"
  const FunctionPath: string := "/system/function/"

  /**
    The map `json.Unmarshal` leaves in a `map[string]interface{}` variable: the members
    of a top-level object; for anything else (a parse error, `null`, or another kind
    of value) the map stays nil, and a nil map behaves as an empty one on lookup.
   */
  function TopLevelMembers(body: Decoded): (m: map<string, Json>)
    ensures m != map[] ==> body.Parsed? && body.value == JObject(m)
  {
    if body.Parsed? && body.value.JObject? then body.value.members else map[]
  }

  /**
    The JSON half of `fetchInfraType`. A found `annotations` must be an object and a
    found `prometheus_labels` in it must be a string, or the type assertion panics;
    a missing key gives the empty label. A non-empty label is the
    `annotations.prometheus_labels` string of a top-level object.
   */
  function ExtractInfraType(body: Decoded): (r: InfraOutcome)
    ensures r.Halted? ==> r.halt == Panicked
    ensures r.Label? && r.value != "" ==>
      && body.Parsed? && body.value.JObject?
      && AnnotationsKey in body.value.members
      && body.value.members[AnnotationsKey].JObject?
      && LabelsKey in body.value.members[AnnotationsKey].members
      && body.value.members[AnnotationsKey].members[LabelsKey] == JString(r.value)
  {
    var top := TopLevelMembers(body);
    if AnnotationsKey in top then
      match top[AnnotationsKey]
      case JObject(annotations) =>
        if LabelsKey in annotations then
          match annotations[LabelsKey]
          case JString(s) => Label(s)
          case _ => Halted(Panicked)
        else Label("")
      case _ => Halted(Panicked)
    else Label("")
  }

  /** A string label under an `annotations` object is the one returned. */
  lemma ExtractPresentLabel(members: map<string, Json>)
    requires AnnotationsKey in members && members[AnnotationsKey].JObject?
    requires LabelsKey in members[AnnotationsKey].members
    requires members[AnnotationsKey].members[LabelsKey].JString?
    ensures ExtractInfraType(Parsed(JObject(members)))
         == Label(members[AnnotationsKey].members[LabelsKey].s)
  {
  }

  /**
    A reply carrying the label `s`: `others` and `otherAnnotations` stand for any
    further members of the object and of its annotations.
   */
  function AnnotatedReply(s: string, others: map<string, Json>, otherAnnotations: map<string, Json>): Json {
    JObject(others[AnnotationsKey := JObject(otherAnnotations[LabelsKey := JString(s)])])
  }

  /** Whatever else the reply holds, the label it carries is the one extracted. */
  lemma ExtractAnnotatedReply(s: string, others: map<string, Json>, otherAnnotations: map<string, Json>)
    ensures ExtractInfraType(Parsed(AnnotatedReply(s, others, otherAnnotations))) == Label(s)
  {
  }

  /**
    The empty label: a reply that did not parse, that is not an object, or that lacks
    `annotations` or `prometheus_labels`.
   */
  lemma ExtractMissingLabel(body: Decoded)
    requires
      || body.Unparsable?
      || !body.value.JObject?
      || AnnotationsKey !in body.value.members
      || (body.value.members[AnnotationsKey].JObject?
          && LabelsKey !in body.value.members[AnnotationsKey].members)
    ensures ExtractInfraType(body) == Label("")
  {
  }

  /** A panic: `annotations` is not an object, or the label in it is not a string. */
  lemma ExtractWrongType(members: map<string, Json>)
    requires AnnotationsKey in members
    requires
      || !members[AnnotationsKey].JObject?
      || (LabelsKey in members[AnnotationsKey].members
          && !members[AnnotationsKey].members[LabelsKey].JString?)
    ensures ExtractInfraType(Parsed(JObject(members))) == Halted(Panicked)
  {
  }

  /**
    The request the lookup sends for `service`, when both credential files could be
    read (password first, then user): the service name goes verbatim after
    `/system/function/`, and the credentials are the files' trimmed contents.
   */
  function LookupRequest(service: string, world: LookupWorld): (req: Option<Request>)
    ensures req.Some? <==> world.passwordFile.Read? && world.userFile.Read?
    ensures req.Some? ==>
      && HasPrefix(req.value.url, world.serverlessUrl)
      && HasSuffix(req.value.url, FunctionPath + service)
      && |req.value.url| == |world.serverlessUrl| + |FunctionPath| + |service|
      && req.value.user == TrimSpace(world.userFile.text)
      && req.value.password == TrimSpace(world.passwordFile.text)
  {
    if world.passwordFile.Unreadable? || world.userFile.Unreadable? then None
    else
      var url := world.serverlessUrl + FunctionPath + service;
      assert url[|url| - |FunctionPath + service|..] == FunctionPath + service;
      Some(Request(url, TrimSpace(world.userFile.text), TrimSpace(world.passwordFile.text)))
  }

  /**
    What the lookup makes of a sent request: a panic when no request could be built
    (`SetBasicAuth` on the nil request), process exit when the transport or the body
    read fails, and otherwise the label extracted from the reply body.
   */
  function ReplyOutcome(exchange: Exchange): (r: InfraOutcome)
    ensures exchange.MalformedUrl? ==> r == Halted(Panicked)
    ensures exchange.TransportFailed? || exchange.BodyUnreadable? ==> r == Halted(Aborted)
    ensures exchange.Replied? ==> r == ExtractInfraType(exchange.body)
  {
    match exchange
    case MalformedUrl => Halted(Panicked)
    case TransportFailed => Halted(Aborted)
    case BodyUnreadable => Halted(Aborted)
    case Replied(body) => ExtractInfraType(body)
  }

  /**
    `fetchInfraType(service)`: the empty label when a credential file cannot be read;
    otherwise the outcome of sending `LookupRequest(service, world)`.
   */
  function FetchInfraType(service: string, world: LookupWorld): (r: InfraOutcome)
    ensures world.passwordFile.Unreadable? || world.userFile.Unreadable? ==> r == Label("")
    ensures LookupRequest(service, world).Some? ==>
      r == ReplyOutcome(world.reply(LookupRequest(service, world).value))
  {
    match LookupRequest(service, world)
    case None => Label("")
    case Some(request) => ReplyOutcome(world.reply(request))
  }

  /**
    With both credential files readable, the infra type is what comes of the GET of
    `serverlessurl + "/system/function/" + service` carrying the trimmed credentials.
   */
  lemma FetchInfraTypeOfService(service: string, world: LookupWorld)
    requires world.passwordFile.Read? && world.userFile.Read?
    ensures FetchInfraType(service, world)
         == ReplyOutcome(world.reply(Request(world.serverlessUrl + FunctionPath + service,
                                             TrimSpace(world.userFile.text),
                                             TrimSpace(world.passwordFile.text))))
  {
  }

  /** Different service names are looked up at different URLs. */
  lemma LookupRequestDistinguishesServices(a: string, b: string, world: LookupWorld)
    requires world.passwordFile.Read? && world.userFile.Read?
    requires a != b
    ensures LookupRequest(a, world).value.url != LookupRequest(b, world).value.url
  {
    var prefix := world.serverlessUrl + FunctionPath;
    if |a| == |b| {
      var i :| 0 <= i < |a| && a[i] != b[i];
      assert (prefix + a)[|prefix| + i] == a[i];
      assert (prefix + b)[|prefix| + i] == b[i];
    }
  }
}
