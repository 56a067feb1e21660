/**
 * The registry client (rest/common/servicecenter/v3/registery.go): how each
 * call builds its request (method, URL, query, headers, body), how it turns
 * the registry's reply into a result or an operation-tagged error, and the
 * watch loop that reads frames from the websocket and hands each decoded
 * event to the callback.
 *
 * Sending a request is outside the model: each call receives the registry's
 * reply to its request as a `Reply` argument.
 */
module RegistryClient {
  import opened Types
  import opened Proto
  import Config
  import GoLib

  // The registry resources.
  const MicroServicesPath := "/registry/v3/microservices"
  const DiscoveryPath := "/registry/v3/instances"
  const ExistencePath := "/registry/v3/existence"
  const HeartbeatsPath := "/registry/v3/heartbeats"

  function InstancesPath(svcID: string): string {
    MicroServicesPath + "/" + svcID + "/instances"
  }

  function WatcherPath(svcID: string): string {
    MicroServicesPath + "/" + svcID + "/watcher"
  }

  /** A client: the registry's base address and the tenant domain. */
  datatype Client = Client(rawURL: string, domain: string)

  type Header = map<string, seq<string>>

  const ContentTypeKey := "Content-Type"
  const DomainKey := "X-Domain-Name"
  /** "x-consumerid" as http.Header.Set stores it, in canonical form. */
  const ConsumerKey := "X-Consumerid"
  const JsonContentType := "application/json"

  /** The headers every request carries; the domain falls back to "default". */
  function DefaultHeaders(c: Client): (h: Header)
    ensures h.Keys == {ContentTypeKey, DomainKey}
    ensures h[ContentTypeKey] == [JsonContentType]
    ensures c.domain != "" ==> h[DomainKey] == [c.domain]
    ensures c.domain == "" ==> h[DomainKey] == [Config.DefaultDomain]
  {
    var headers := map[ContentTypeKey := [JsonContentType], DomainKey := [Config.DefaultDomain]];
    if c.domain != "" then headers[DomainKey := [c.domain]] else headers
  }

  datatype HttpMethod = Get | Post | Put

  /** The typed request bodies, one per call that sends one. */
  datatype Body =
    | NoBody
    | ServiceBody(service: MicroService)
    | InstanceBody(instance: MicroServiceInstance)
    | HeartbeatSetBody(instances: seq<HeartbeatSetElement>)

  /**
   * A request: `url` is the base address and resource path, and `query` the
   * url.Values that are encoded after a "?".
   */
  datatype Request = Request(verb: HttpMethod, url: string, query: map<string, string>, header: Header, body: Body)

  /** The fields of a decoded response body that the calls read. */
  datatype ResponseBody = ResponseBody(serviceId: string, instanceId: string, instances: seq<MicroServiceInstance>)

  /** The registry's reply to one request, or the error the HTTP helper returned. */
  datatype Reply = Answered(body: ResponseBody) | CallFailed(cause: string)

  /** The request a call sends and the result it returns. */
  datatype Call<T> = Call(request: Request, result: Result<T, string>)

  // ---------------------------------------------------------------------
  // Operation-tagged errors.

  datatype Operation =
    | GetServiceIDOp | RegisterServiceOp | RegisterInstanceOp
    | HeartbeatOp | DiscoveryOp | WatchServiceOp

  /** The operation's name as its error tag spells it. */
  function Name(op: Operation): string {
    match op
    case GetServiceIDOp => "GetServiceID"
    case RegisterServiceOp => "RegisterService"
    case RegisterInstanceOp => "RegisterInstance"
    case HeartbeatOp => "Heartbeat"
    case DiscoveryOp => "Discovery"
    case WatchServiceOp => "WatchService"
  }

  /** The tag that starts every error of an operation: "[" name "]: ". */
  function Tag(op: Operation): string {
    "[" + Name(op) + "]: "
  }

  /** The error a failing call returns: its tag followed by the cause. */
  function OpError(op: Operation, cause: string): string {
    Tag(op) + cause
  }

  /** The operation with a given name, if any. */
  function Named(name: string): Option<Operation> {
    if name == Name(GetServiceIDOp) then Some(GetServiceIDOp)
    else if name == Name(RegisterServiceOp) then Some(RegisterServiceOp)
    else if name == Name(RegisterInstanceOp) then Some(RegisterInstanceOp)
    else if name == Name(HeartbeatOp) then Some(HeartbeatOp)
    else if name == Name(DiscoveryOp) then Some(DiscoveryOp)
    else if name == Name(WatchServiceOp) then Some(WatchServiceOp)
    else None
  }

  /** The operation an error message names between its leading "[" and the first "]", if any. */
  function OperationOf(message: string): Option<Operation> {
    if |message| == 0 || message[0] != '[' then None
    else
      var close := GoLib.IndexOf(message, ']');
      if close < 1 then None else Named(message[1..close])
  }

  /** Every name is found again, and contains no closing bracket. */
  lemma NamedName(op: Operation)
    ensures Named(Name(op)) == Some(op)
    ensures ']' !in Name(op)
  {
  }

  /** A tagged error names its operation and keeps the cause after the tag. */
  lemma {:induction false} OpErrorRoundTrip(op: Operation, cause: string)
    ensures OperationOf(OpError(op, cause)) == Some(op)
    ensures |Tag(op)| <= |OpError(op, cause)| && OpError(op, cause)[|Tag(op)|..] == cause
  {
    var m := OpError(op, cause);
    var n := |Name(op)|;
    NamedName(op);
    assert m == "[" + Name(op) + "]" + (": " + cause);
    assert m[..n + 1] == "[" + Name(op);
    GoLib.FirstIndexBefore(m, n + 1, ']');
    assert m[1..n + 1] == Name(op);
    assert m[|Tag(op)|..] == cause;
  }

  /** The result of a call given the reply: the value read from the body, or the tagged cause. */
  function Complete<T>(op: Operation, reply: Reply, read: ResponseBody -> T): (r: Result<T, string>)
    ensures r.Ok? <==> reply.Answered?
    ensures r.Ok? ==> r.value == read(reply.body)
    ensures r.Err? ==> OperationOf(r.error) == Some(op) && r.error == OpError(op, reply.cause)
  {
    match reply
    case Answered(body) => Ok(read(body))
    case CallFailed(cause) => OpErrorRoundTrip(op, cause); Err(OpError(op, cause))
  }

  // ---------------------------------------------------------------------
  // The calls.

  function ExistenceRequest(c: Client, svc: Config.ServiceConf): Request {
    Request(Get, c.rawURL + ExistencePath,
            map["type" := "microservice", "appId" := svc.appId, "serviceName" := svc.name, "version" := svc.version],
            DefaultHeaders(c), NoBody)
  }

  /** GetServiceID: the id the existence check returned ("" when there is none). */
  function GetServiceID(c: Client, svc: Config.ServiceConf, reply: Reply): (r: Call<string>)
    ensures r.request == ExistenceRequest(c, svc)
    ensures r.result.Ok? <==> reply.Answered?
    ensures r.result.Ok? ==> r.result.value == reply.body.serviceId
    ensures r.result.Err? ==> OperationOf(r.result.error) == Some(GetServiceIDOp)
  {
    Call(ExistenceRequest(c, svc), Complete(GetServiceIDOp, reply, (b: ResponseBody) => b.serviceId))
  }

  function RegisterServiceRequest(c: Client, svc: Config.ServiceConf): Request {
    Request(Post, c.rawURL + MicroServicesPath, map[], DefaultHeaders(c),
            ServiceBody(MicroService(svc.appId, svc.name, svc.version)))
  }

  /** RegisterService: the id of the created service. */
  function RegisterService(c: Client, svc: Config.ServiceConf, reply: Reply): (r: Call<string>)
    ensures r.request == RegisterServiceRequest(c, svc)
    ensures r.result.Ok? <==> reply.Answered?
    ensures r.result.Ok? ==> r.result.value == reply.body.serviceId
    ensures r.result.Err? ==> OperationOf(r.result.error) == Some(RegisterServiceOp)
  {
    Call(RegisterServiceRequest(c, svc), Complete(RegisterServiceOp, reply, (b: ResponseBody) => b.serviceId))
  }

  /** The endpoint an instance registers: protocol "://" listen address. */
  function InstanceEndpoint(ins: Config.InstanceConf): string {
    ins.protocol + "://" + ins.listenAddress
  }

  function RegisterInstanceRequest(c: Client, svcID: string, ins: Config.InstanceConf): Request {
    Request(Post, c.rawURL + InstancesPath(svcID), map[], DefaultHeaders(c),
            InstanceBody(MicroServiceInstance("", ins.hostname, "", [InstanceEndpoint(ins)])))
  }

  /** RegisterInstance: the id of the created instance. */
  function RegisterInstance(c: Client, svcID: string, ins: Config.InstanceConf, reply: Reply): (r: Call<string>)
    ensures r.request == RegisterInstanceRequest(c, svcID, ins)
    ensures r.result.Ok? <==> reply.Answered?
    ensures r.result.Ok? ==> r.result.value == reply.body.instanceId
    ensures r.result.Err? ==> OperationOf(r.result.error) == Some(RegisterInstanceOp)
  {
    Call(RegisterInstanceRequest(c, svcID, ins), Complete(RegisterInstanceOp, reply, (b: ResponseBody) => b.instanceId))
  }

  function HeartbeatRequest(c: Client, svcID: string, insID: string): Request {
    Request(Put, c.rawURL + HeartbeatsPath, map[], DefaultHeaders(c),
            HeartbeatSetBody([HeartbeatSetElement(svcID, insID)]))
  }

  /** Heartbeat: nothing is read from the reply; only failure matters. */
  function Heartbeat(c: Client, svcID: string, insID: string, reply: Reply): (r: Call<()>)
    ensures r.request == HeartbeatRequest(c, svcID, insID)
    ensures r.result.Ok? <==> reply.Answered?
    ensures r.result.Err? ==> OperationOf(r.result.error) == Some(HeartbeatOp)
  {
    Call(HeartbeatRequest(c, svcID, insID), Complete(HeartbeatOp, reply, (b: ResponseBody) => ()))
  }

  function DiscoveryRequest(c: Client, conID: string, svc: Config.ServiceConf): Request {
    Request(Get, c.rawURL + DiscoveryPath,
            map["appId" := svc.appId, "serviceName" := svc.name, "version" := svc.version],
            DefaultHeaders(c)[ConsumerKey := [conID]], NoBody)
  }

  /** Discovery: the instances of the service `svc`, asked on behalf of consumer `conID`. */
  function Discovery(c: Client, conID: string, svc: Config.ServiceConf, reply: Reply): (r: Call<seq<MicroServiceInstance>>)
    ensures r.request == DiscoveryRequest(c, conID, svc)
    ensures r.result.Ok? <==> reply.Answered?
    ensures r.result.Ok? ==> r.result.value == reply.body.instances
    ensures r.result.Err? ==> OperationOf(r.result.error) == Some(DiscoveryOp)
  {
    Call(DiscoveryRequest(c, conID, svc), Complete(DiscoveryOp, reply, (b: ResponseBody) => b.instances))
  }

  // ---------------------------------------------------------------------
  // Properties of the requests.

  /** The existence check asks for a microservice by its three identity fields. */
  lemma ExistenceQuery(c: Client, svc: Config.ServiceConf)
    ensures var r := ExistenceRequest(c, svc);
      && r.verb == Get && r.url == c.rawURL + ExistencePath && r.body.NoBody?
      && r.query.Keys == {"type", "appId", "serviceName", "version"} && r.query["type"] == "microservice"
      && r.query["appId"] == svc.appId && r.query["serviceName"] == svc.name && r.query["version"] == svc.version
      && r.header == DefaultHeaders(c)
  {
  }

  /** Discovery asks by the same identity fields and names the consumer in X-Consumerid. */
  lemma DiscoveryQuery(c: Client, conID: string, svc: Config.ServiceConf)
    ensures var r := DiscoveryRequest(c, conID, svc);
      && r.verb == Get && r.url == c.rawURL + DiscoveryPath && r.body.NoBody?
      && r.query.Keys == {"appId", "serviceName", "version"}
      && r.query["appId"] == svc.appId && r.query["serviceName"] == svc.name && r.query["version"] == svc.version
      && r.header.Keys == {ContentTypeKey, DomainKey, ConsumerKey}
      && r.header[ConsumerKey] == [conID]
      && r.header[ContentTypeKey] == [JsonContentType]
      && r.header[DomainKey] == DefaultHeaders(c)[DomainKey]
  {
  }

  /**
   * An instance registers exactly one endpoint, protocol "://" address, and
   * that endpoint's scheme is the protocol when the protocol is non-empty
   * and has no colon; with no protocol the endpoint has no scheme.
   */
  lemma {:induction false} RegisteredEndpoint(c: Client, svcID: string, ins: Config.InstanceConf)
    ensures var body := RegisterInstanceRequest(c, svcID, ins).body;
      body.InstanceBody?
      && body.instance.hostName == ins.hostname
      && body.instance.endpoints == [ins.protocol + "://" + ins.listenAddress]
    ensures ins.protocol != "" && ':' !in ins.protocol ==>
      GoLib.SplitScheme(InstanceEndpoint(ins)) == Some((ins.protocol, ins.listenAddress))
    ensures ins.protocol == "" ==> GoLib.SplitScheme(InstanceEndpoint(ins)) == None
  {
    if ins.protocol != "" && ':' !in ins.protocol {
      GoLib.SplitSchemeOfJoin(ins.protocol, ins.listenAddress);
    } else if ins.protocol == "" {
      assert GoLib.SeparatorAt(InstanceEndpoint(ins), 0);
    }
  }

  /** A heartbeat carries exactly one element: the given service and instance ids. */
  lemma HeartbeatBody(c: Client, svcID: string, insID: string)
    ensures var r := HeartbeatRequest(c, svcID, insID);
      r.verb == Put && r.url == c.rawURL + HeartbeatsPath
      && r.body.HeartbeatSetBody? && |r.body.instances| == 1
      && r.body.instances[0].serviceId == svcID && r.body.instances[0].instanceId == insID
  {
  }

  /** Distinct services get distinct instance and watcher paths, and the two kinds never coincide. */
  lemma {:induction false} PathsIdentifyService(a: string, b: string)
    ensures InstancesPath(a) == InstancesPath(b) ==> a == b
    ensures WatcherPath(a) == WatcherPath(b) ==> a == b
    ensures InstancesPath(a) != WatcherPath(b)
  {
    var p := MicroServicesPath + "/";
    assert InstancesPath(a) == p + (a + "/instances");
    assert InstancesPath(b) == p + (b + "/instances");
    assert WatcherPath(a) == p + (a + "/watcher");
    assert WatcherPath(b) == p + (b + "/watcher");
    if InstancesPath(a) == InstancesPath(b) {
      assert (p + (a + "/instances"))[|p|..] == a + "/instances";
      assert (p + (b + "/instances"))[|p|..] == b + "/instances";
      assert (a + "/instances")[..|a|] == a;
      assert (b + "/instances")[..|b|] == b;
    }
    if WatcherPath(a) == WatcherPath(b) {
      assert (p + (a + "/watcher"))[|p|..] == a + "/watcher";
      assert (p + (b + "/watcher"))[|p|..] == b + "/watcher";
      assert (a + "/watcher")[..|a|] == a;
      assert (b + "/watcher")[..|b|] == b;
    }
    var i, w := InstancesPath(a), WatcherPath(b);
    assert i[|i| - 1] == 's';
    assert w[|w| - 1] == 'r';
  }

  // ---------------------------------------------------------------------
  // WatchService.

  /** The watcher URL: base address and watcher path with the scheme replaced by "ws". */
  function WatchURL(c: Client, svcID: string): Option<string> {
    match GoLib.SplitScheme(c.rawURL + WatcherPath(svcID))
    case None => None
    case Some((_, rest)) => Some("ws://" + rest)
  }

  /** An "http://host" base address is watched at "ws://host" plus the watcher path. */
  lemma {:induction false} WatchURLUsesWs(c: Client, svcID: string)
    requires GoLib.SplitScheme(c.rawURL).Some?
    ensures WatchURL(c, svcID) == Some("ws://" + GoLib.SplitScheme(c.rawURL).value.1 + WatcherPath(svcID))
  {
    var rest := GoLib.SplitScheme(c.rawURL).value.1;
    GoLib.SplitSchemeAppend(c.rawURL, WatcherPath(svcID));
    assert "ws://" + (rest + WatcherPath(svcID)) == "ws://" + rest + WatcherPath(svcID);
  }

  /** A text frame's payload, as json.Unmarshal saw it. */
  datatype Payload = Decodes(event: WatchInstanceResponse) | Undecodable(cause: string)

  /** What one conn.ReadMessage returned. */
  datatype Frame = TextFrame(payload: Payload) | OtherFrame | ReadError(cause: string)

  /** The frames that end the loop: a read error or a text frame that does not decode. */
  predicate EndsStream(f: Frame) {
    f.ReadError? || (f.TextFrame? && f.payload.Undecodable?)
  }

  /** The cause the model gives to running out of frames: the peer closed the connection. */
  const ConnectionClosed := "connection closed"

  /** The events handed to the callback, in order, for the frames read. */
  function Delivered(frames: seq<Frame>): seq<WatchInstanceResponse> {
    if frames == [] then []
    else
      match frames[0]
      case ReadError(_) => []
      case OtherFrame => Delivered(frames[1..])
      case TextFrame(Undecodable(_)) => []
      case TextFrame(Decodes(e)) => [e] + Delivered(frames[1..])
  }

  /** The error that ended the loop. */
  function StopCause(frames: seq<Frame>): string {
    if frames == [] then ConnectionClosed
    else
      match frames[0]
      case ReadError(cause) => cause
      case OtherFrame => StopCause(frames[1..])
      case TextFrame(Undecodable(cause)) => cause
      case TextFrame(Decodes(_)) => StopCause(frames[1..])
  }

  /** What fmt's %s verb prints for a nil error. */
  const NilFormatted := "%!s(<nil>)"

  /** A Go error as the %s verb prints it; None is a nil error. */
  function Formatted(err: Option<string>): string {
    match err
    case None => NilFormatted
    case Some(e) => e
  }

  /** The error the loop evidently meant to return: the read or decode error itself. */
  function ReceiveFailedWithCause(cause: string): string {
    OpError(WatchServiceOp, "receive message faild: " + cause)
  }

  const UrlParseFailed := "parse repositry url faild: "

  /** What the websocket dialer is given: the watcher URL and the request headers. */
  datatype DialTarget = DialTarget(url: string, header: Header)

  /**
   * WatchService over an abstract connection: `dial` is the dial error, if
   * any, and `frames` what successive reads return; the callback's
   * invocations are returned as `events`, in order, and `target` is what
   * was dialed (None when the URL did not parse).  The returned error
   * carries the cause that ended the loop: this is the corrected form of
   * the final return; WatchServiceAsWritten keeps the code's own.
   */
  method WatchService(c: Client, svcID: string, dial: Option<string>, frames: seq<Frame>)
    returns (events: seq<WatchInstanceResponse>, err: string, target: Option<DialTarget>)
    ensures target.None? <==> WatchURL(c, svcID).None?
    ensures target.Some? ==> target.value == DialTarget(WatchURL(c, svcID).value, DefaultHeaders(c))
    ensures WatchURL(c, svcID).None? ==>
      events == [] && err == OpError(WatchServiceOp, UrlParseFailed + c.rawURL + WatcherPath(svcID))
    ensures WatchURL(c, svcID).Some? && dial.Some? ==>
      events == [] && err == OpError(WatchServiceOp, "start websocket faild: " + dial.value)
    ensures WatchURL(c, svcID).Some? && dial.None? ==>
      events == Delivered(frames) && err == ReceiveFailedWithCause(StopCause(frames))
    ensures OperationOf(err) == Some(WatchServiceOp)
  {
    var url := WatchURL(c, svcID);
    if url.None? {
      err := OpError(WatchServiceOp, UrlParseFailed + c.rawURL + WatcherPath(svcID));
      OpErrorRoundTrip(WatchServiceOp, UrlParseFailed + c.rawURL + WatcherPath(svcID));
      return [], err, None;
    }
    target := Some(DialTarget(url.value, DefaultHeaders(c)));
    if dial.Some? {
      OpErrorRoundTrip(WatchServiceOp, "start websocket faild: " + dial.value);
      return [], OpError(WatchServiceOp, "start websocket faild: " + dial.value), target;
    }
    events := [];
    var cause := ConnectionClosed;
    var i := 0;
    while i < |frames|
      invariant 0 <= i <= |frames|
      invariant events + Delivered(frames[i..]) == Delivered(frames)
      invariant StopCause(frames[i..]) == StopCause(frames)
    {
      var f := frames[i];
      assert frames[i..][0] == f && frames[i..][1..] == frames[i + 1..];
      if f.ReadError? {
        cause := f.cause;
        break;
      }
      if f.TextFrame? {
        if f.payload.Undecodable? {
          cause := f.payload.cause;
          break;
        }
        events := events + [f.payload.event];
      }
      i := i + 1;
    }
    OpErrorRoundTrip(WatchServiceOp, "receive message faild: " + cause);
    err := ReceiveFailedWithCause(cause);
  }

  /**
   * WatchService as written: the loop's read and decode declare their own
   * `err`, which shadows the function-level one, so the final return
   * formats the dial's `err`, nil by then, whatever ended the loop.
   */
  method WatchServiceAsWritten(c: Client, svcID: string, dial: Option<string>, frames: seq<Frame>)
    returns (events: seq<WatchInstanceResponse>, result: string, target: Option<DialTarget>)
    ensures target.None? <==> WatchURL(c, svcID).None?
    ensures target.Some? ==> target.value == DialTarget(WatchURL(c, svcID).value, DefaultHeaders(c))
    ensures WatchURL(c, svcID).None? ==>
      events == [] && result == OpError(WatchServiceOp, UrlParseFailed + c.rawURL + WatcherPath(svcID))
    ensures WatchURL(c, svcID).Some? && dial.Some? ==>
      events == [] && result == OpError(WatchServiceOp, "start websocket faild: " + dial.value)
    ensures WatchURL(c, svcID).Some? && dial.None? ==>
      && events == Delivered(frames)
      && result == ReceiveFailedWithCause(NilFormatted)
      && (StopCause(frames) != NilFormatted ==> result != ReceiveFailedWithCause(StopCause(frames)))
  {
    var url := WatchURL(c, svcID);
    if url.None? {
      return [], OpError(WatchServiceOp, UrlParseFailed + c.rawURL + WatcherPath(svcID)), None;
    }
    target := Some(DialTarget(url.value, DefaultHeaders(c)));
    var err := dial;
    if err.Some? {
      return [], OpError(WatchServiceOp, "start websocket faild: " + Formatted(err)), target;
    }
    events := [];
    var i := 0;
    while i < |frames|
      invariant 0 <= i <= |frames|
      invariant events + Delivered(frames[i..]) == Delivered(frames)
    {
      var f := frames[i];
      assert frames[i..][0] == f && frames[i..][1..] == frames[i + 1..];
      var err := if f.ReadError? then Some(f.cause) else None;
      if err.Some? {
        break;
      }
      if f.TextFrame? {
        var err := if f.payload.Undecodable? then Some(f.payload.cause) else None;
        if err.Some? {
          break;
        }
        events := events + [f.payload.event];
      }
      i := i + 1;
    }
    result := ReceiveFailedWithCause(Formatted(err));
    ReceiveFailedWithCauseKeepsCause(StopCause(frames));
  }

  // ---------------------------------------------------------------------
  // Properties of the watch loop.

  /** The index of the first frame that ends the loop, or |frames|. */
  function StopIndex(frames: seq<Frame>): nat {
    FirstIndex(frames, EndsStream).GetOr(|frames|)
  }

  /** The events of the decodable text frames of `frames`, in order. */
  function DecodedEvents(frames: seq<Frame>): seq<WatchInstanceResponse> {
    if frames == [] then []
    else (if frames[0].TextFrame? && frames[0].payload.Decodes? then [frames[0].payload.event] else [])
         + DecodedEvents(frames[1..])
  }

  /**
   * The callback runs once per decodable text frame before the first frame
   * that ends the loop, in arrival order; other frames are skipped.
   */
  lemma {:induction false} DeliveredBeforeStop(frames: seq<Frame>)
    ensures StopIndex(frames) <= |frames|
    ensures Delivered(frames) == DecodedEvents(frames[..StopIndex(frames)])
  {
    if frames != [] {
      DeliveredBeforeStop(frames[1..]);
      if !EndsStream(frames[0]) {
        var k := StopIndex(frames[1..]);
        assert StopIndex(frames) == k + 1;
        assert frames[..k + 1][1..] == frames[1..][..k];
      }
    }
  }

  /**
   * The loop's cause is that of the first frame that ends it: its read
   * error or its decode error, or "connection closed" when no frame ends it.
   */
  lemma {:induction false} StopCauseAtStop(frames: seq<Frame>)
    ensures StopIndex(frames) == |frames| ==> StopCause(frames) == ConnectionClosed
    ensures StopIndex(frames) < |frames| && frames[StopIndex(frames)].ReadError? ==>
      StopCause(frames) == frames[StopIndex(frames)].cause
    ensures StopIndex(frames) < |frames| && frames[StopIndex(frames)].TextFrame? ==>
      StopCause(frames) == frames[StopIndex(frames)].payload.cause
  {
    if frames != [] && !EndsStream(frames[0]) {
      StopCauseAtStop(frames[1..]);
      assert StopIndex(frames) == StopIndex(frames[1..]) + 1 by {
        match FirstIndex(frames[1..], EndsStream)
        case None =>
        case Some(k) =>
      }
    }
  }

  /** Nothing from a frame that ends the loop onward is ever delivered. */
  lemma {:induction false} NothingAfterStop(frames: seq<Frame>, k: nat)
    requires k < |frames| && EndsStream(frames[k])
    ensures Delivered(frames) == Delivered(frames[..k])
    ensures StopCause(frames) == StopCause(frames[..k + 1])
  {
    if k > 0 {
      NothingAfterStop(frames[1..], k - 1);
      assert frames[1..][..k - 1] == frames[..k][1..];
      assert frames[1..][..k] == frames[..k + 1][1..];
    }
  }

  /** With the cause kept, the error names WatchService and ends with the cause. */
  lemma {:induction false} ReceiveFailedWithCauseKeepsCause(cause: string)
    ensures var m := ReceiveFailedWithCause(cause);
      OperationOf(m) == Some(WatchServiceOp)
      && |"receive message faild: " + cause| <= |m|
      && m[|m| - |cause|..] == cause
    ensures forall other :: other != cause ==> ReceiveFailedWithCause(other) != ReceiveFailedWithCause(cause)
  {
    var m := ReceiveFailedWithCause(cause);
    OpErrorRoundTrip(WatchServiceOp, "receive message faild: " + cause);
    assert m == (Tag(WatchServiceOp) + "receive message faild: ") + cause;
    forall other | other != cause
      ensures ReceiveFailedWithCause(other) != ReceiveFailedWithCause(cause)
    {
      var p := Tag(WatchServiceOp) + "receive message faild: ";
      assert ReceiveFailedWithCause(other) == p + other;
      assert (p + other)[|p|..] == other;
      assert (p + cause)[|p|..] == cause;
    }
  }
}
