# Registry-client bookkeeping of the helloworld service-center demo

The repository is a pair of demo programs for a ServiceComb service center:
a provider that registers itself and keeps its instance alive with
heartbeats, and a consumer that discovers the provider, caches its
instances, follows their changes over a websocket watch and calls the first
instance that is UP.  This Dafny project models the bookkeeping around the
registry:

- `config.dfy` (module `Config`): the configuration records, the tenant
  default, the listen-address check and rewrite of `LoadConfig`, and the five
  package globals it publishes only after every check passed (class
  `Globals`).
- `registry_client.dfy` (module `RegistryClient`): how each registry call
  builds its request (method, URL, query, headers, body), how a reply becomes
  a result or an operation-tagged error, and the `WatchService` read loop
  over an abstract sequence of websocket frames.
- `bootstrap.dfy` (module `Bootstrap`): the register-the-service-if-absent
  step that both programs perform.
- `hello_client.dfy` (module `HelloClient`): the consumer's instance cache
  (class `Consumer`, with the cache as a map field), the effect of watch
  events on it, and endpoint selection.
- `hello_server.dfy` (module `HelloServer`): the provider's registration,
  its heartbeat loop driven by a sequence of tick/cancel events, and its
  shutdown order (class `Provider`, which records every call it makes).
- `golib.dfy` (module `GoLib`): the Go library behaviour these depend on —
  `net.SplitHostPort`, `strconv.Atoi` for a 64-bit
  `int`, and the scheme of a URL, taken as the non-empty text before the
  first `://`.
- `types.dfy` and `proto.dfy`: `Option`, `Result`, a first-match search, and
  the fields of the service-center protocol records that the core reads.

Sending a request is not modelled: each registry call takes the registry's
reply (`Answered(body)` or `CallFailed(cause)`) as an argument, and returns
the request it would send together with its result.  The heartbeat ticker and
cancellation are a sequence of `Tick(reply)` / `Cancel` events; running out
of events means the loop is still waiting.  The websocket is the dial error,
if any, plus the sequence of frames that reads return; running out of frames
means the peer closed the connection.

A watch event's `action` is not consulted by the consumer: every event,
whatever its action, replaces or appends the instance it carries.  The model
keeps this (`HelloClient.ApplyChange`).

The functions that define the model, and the Go code each one follows
(their properties are the lemmas and methods in the table below):

- `GoLib.SplitHostPort`: `net.SplitHostPort`, called at rest/common/config/config.go:85.
- `Config.NormalizeListenAddress` and `Config.Normalized`: the checks and rewrites of `LoadConfig`, rest/common/config/config.go:68-97.
- `Bootstrap.RegisterServiceIfAbsent`: `registerService`, rest/consumer/helloclient.go:53-65, repeated at rest/provider/helloserver.go:72-80.
- `HelloClient.ApplyChange`: the scan-and-replace-or-append of `watchCallback`, rest/consumer/helloclient.go:106-118.
- `HelloClient.SelectEndpoint`: `getProviderEndpoint` as written, rest/consumer/helloclient.go:122-150.
- `HelloServer.Run`, `HelloServer.HeartbeatLoop`: `registerAndHeartbeat` and its ticker loop, rest/provider/helloserver.go:70-112 and 93-111.
- `HelloServer.Shutdown`: `destroy`, rest/provider/helloserver.go:37-50.

## Model

| member | source | states |
|---|---|---|
| Config.Globals.LoadConfig | rest/common/config/config.go:55-105 | on any failed check the result is that error and none of the five globals changes; on success the globals are the file's sections with the tenant defaulted and the instance's hostname and listen address normalised |
| Config.ListenAddressAccepted | rest/common/config/config.go:81-95 | an address is accepted iff it is non-empty, net.SplitHostPort accepts it and its port is an integer above 0; an empty one is refused as empty and a bad port as a bad port |
| Config.NormalizedAddressSplits | rest/common/config/config.go:85-96 | every accepted address is stored as the host (127.0.0.1 when empty) + ":" + the port text as written, brackets dropped; for a host without a colon, splitting it again gives back that host and port |
| Config.NormalizeIdempotent | rest/common/config/config.go:85-96 | normalising a normalised address (host without a colon) changes nothing |
| Config.EmptyHostDefaults | rest/common/config/config.go:85-96 | ":8080" is stored as "127.0.0.1:8080" |
| Config.Atoi8080 | rest/common/config/config.go:92 | strconv.Atoi("8080") is 8080 |
| Config.NonNumericPortRejected | rest/common/config/config.go:92-95 | "web:http" is refused with a port error naming "http" |
| Config.ZeroPortRejected | rest/common/config/config.go:92-95 | "web:0" is refused with a port error naming "0" |
| Config.SplitBracketedLoopback | rest/common/config/config.go:85 | net.SplitHostPort("[::1]:8080") gives host "::1" and port "8080" |
| Config.BracketedHostLosesBrackets | rest/common/config/config.go:85-96 | "[::1]:8080" is stored as "::1:8080": the IPv6 brackets are lost |
| Config.RewrittenLoopbackRefused | rest/common/config/config.go:85-88 | the stored "::1:8080" is refused by net.SplitHostPort (too many colons), so the check itself would refuse it |
| Config.TenantDefaulted | rest/common/config/config.go:68-74 | after loading, the tenant is present; its domain is "default" when the section or its domain was missing, and the file's otherwise |
| Config.NoInstanceNoChecks | rest/common/config/config.go:76-97 | without an instance section loading cannot fail and no instance is published |
| Config.InstanceChecked | rest/common/config/config.go:76-97 | with an instance section, loading succeeds iff its listen address is accepted, fails with that address's error otherwise; on success the service, registry and provider sections and the protocol are the file's, the tenant is defaulted, the address is normalised and an empty hostname becomes the machine's |
| GoLib.SplitHostPortParts | rest/common/config/config.go:85 | a port returned by net.SplitHostPort has no colon or bracket, the host no bracket, and both are shorter than the input |
| GoLib.SplitConcatenated | rest/common/config/config.go:85-96 | net.SplitHostPort of host + ":" + port, the way the listen address is rebuilt, gives back host and port when neither contains a colon or bracket |
| GoLib.Atoi | rest/common/config/config.go:92 | a parsed value lies within the int64 range |
| GoLib.SplitSchemeOfJoin | rest/consumer/helloclient.go:140-147 | the scheme of scheme + "://" + rest is that scheme (no colon in it) and the remainder is rest |
| RegistryClient.DefaultHeaders | rest/common/servicecenter/v3/registery.go:185-194 | exactly Content-Type and X-Domain-Name; Content-Type is application/json; X-Domain-Name is the client's domain when non-empty and "default" otherwise |
| RegistryClient.OpErrorRoundTrip | rest/common/servicecenter/v3/registery.go:65 | a tagged error names its operation and the cause follows the tag unchanged |
| RegistryClient.Complete | rest/common/servicecenter/v3/registery.go:102-109 | a call succeeds iff the registry answered, returns the field read from the answer, and otherwise fails with the cause tagged by the operation |
| RegistryClient.GetServiceID | rest/common/servicecenter/v3/registery.go:55-66 | sends the existence request; success iff answered, returning the answer's service id; a failure carries the GetServiceID tag |
| RegistryClient.RegisterService | rest/common/servicecenter/v3/registery.go:69-88 | sends the create-service request; success iff answered, returning the new service id; a failure carries the RegisterService tag |
| RegistryClient.RegisterInstance | rest/common/servicecenter/v3/registery.go:91-110 | sends the register-instance request; success iff answered, returning the new instance id; a failure carries the RegisterInstance tag |
| RegistryClient.Heartbeat | rest/common/servicecenter/v3/registery.go:113-129 | sends the heartbeat request; success iff answered; a failure carries the Heartbeat tag |
| RegistryClient.Discovery | rest/common/servicecenter/v3/registery.go:132-149 | sends the discovery request; success iff answered, returning the answer's instances; a failure carries the Discovery tag |
| RegistryClient.ExistenceQuery | rest/common/servicecenter/v3/registery.go:41-60 | the existence check is a GET of the existence path with exactly type=microservice, appId, serviceName and version, and the default headers |
| RegistryClient.DiscoveryQuery | rest/common/servicecenter/v3/registery.go:132-141 | discovery is a GET of the instances path with exactly appId, serviceName and version, and headers Content-Type, X-Domain-Name and X-Consumerid = the consumer id |
| RegistryClient.RegisteredEndpoint | rest/common/servicecenter/v3/registery.go:91-97 | the instance sent has the configured hostname and exactly one endpoint, protocol + "://" + listen address, whose scheme is the protocol when that is non-empty and colon-free; with an empty protocol the endpoint has no scheme |
| RegistryClient.HeartbeatBody | rest/common/servicecenter/v3/registery.go:113-121 | a heartbeat is a PUT of the heartbeats path whose body holds exactly one element, the given service and instance ids |
| RegistryClient.PathsIdentifyService | rest/common/servicecenter/v3/registery.go:18-23 | distinct service ids give distinct instance paths and distinct watcher paths, and no instance path is a watcher path |
| RegistryClient.WatchURLUsesWs | rest/common/servicecenter/v3/registery.go:152-159 | the watcher URL is "ws://" + the base address after its scheme + the watcher path |
| RegistryClient.WatchService | rest/common/servicecenter/v3/registery.go:152-182 | an unparsable URL dials nothing; otherwise the dialer is given the watcher URL and the default headers; an unparsable URL or a failed dial returns its tagged error and delivers nothing; otherwise the delivered events are Delivered(frames) and the error carries the cause that ended the loop, which is the corrected form of line 181 recorded under "## Findings"; the error is never absent and always carries the WatchService tag |
| RegistryClient.DeliveredBeforeStop | rest/common/servicecenter/v3/registery.go:165-179 | the callback runs once per decodable text frame before the first read error or undecodable text frame, in arrival order; other frames are skipped |
| RegistryClient.StopCauseAtStop | rest/common/servicecenter/v3/registery.go:165-179 | the loop's cause is the read or decode error of the first frame that ends it, or "connection closed" when none does |
| RegistryClient.NothingAfterStop | rest/common/servicecenter/v3/registery.go:165-179 | no frame at or after a read error or undecodable text frame contributes an event, and no frame after it changes the stop cause |
| RegistryClient.WatchServiceAsWritten | rest/common/servicecenter/v3/registery.go:152-182 | as written, with the loop's own `err` declarations shadowing the function's: it dials the same target and delivers the same events, but after the loop the error is always the one the corrected form gives for the cause "%!s(<nil>)", whatever frames arrived, so it differs from the corrected error whenever the real cause is anything else |
| RegistryClient.ReceiveFailedWithCauseKeepsCause | rest/common/servicecenter/v3/registery.go:181 | the corrected error carries the WatchService tag, ends with the cause, and distinct causes give distinct errors |
| Bootstrap.RegistersOnlyWhenAbsent | rest/consumer/helloclient.go:53-65 | the lookup is sent first; the create request is sent iff the lookup failed or answered ""; then the outcome is the created id or a RegisterService error, otherwise the looked-up id (the provider repeats this step at rest/provider/helloserver.go:72-80) |
| HelloClient.ApplyChangeReplacesFirst | rest/consumer/helloclient.go:108-114 | an event whose id is cached replaces the first entry with that id at the same index; the length and every other entry are unchanged |
| HelloClient.ApplyChangeAppends | rest/consumer/helloclient.go:115-118 | an event whose id is not cached is appended after the unchanged list |
| HelloClient.ApplyChangeLookup | rest/consumer/helloclient.go:108-118 | after an event, its id finds the event's instance and any other id finds what it found before |
| HelloClient.ApplyChangeKeepsIdsUnique | rest/consumer/helloclient.go:108-118 | a list with at most one entry per id keeps that property |
| HelloClient.ApplyAllLookup | rest/consumer/helloclient.go:99-119 | after a run of events each id finds the instance of the last event for it, or what it found before when there was none |
| HelloClient.ApplyAllKeepsIdsUnique | rest/consumer/helloclient.go:99-119 | a run of events keeps at most one entry per id |
| HelloClient.Consumer.WatchCallback | rest/consumer/helloclient.go:99-119 | the cache changes only in the provider's entry, and only if the provider is cached, to ApplyChange of that entry |
| HelloClient.Consumer.Watch | rest/consumer/helloclient.go:90-96 | the events applied are the ones WatchService delivered, in order, and the cache ends as the provider's entry with all of them applied |
| HelloClient.Consumer.DiscoveryProviderAndCache | rest/consumer/helloclient.go:68-87 | the provider's list is cached iff discovery answered with at least one instance whose first has an endpoint; otherwise the process stops (a failed call with its Discovery error) and the cache is unchanged |
| HelloClient.Consumer.GetProviderEndpoint | rest/consumer/helloclient.go:122-150 | the scan returns SelectEndpointChecked of the current cache |
| HelloClient.SelectEndpointChecked | rest/consumer/helloclient.go:122-150 | endpoint selection with the length check never panics |
| HelloClient.CheckedAgreesWithoutPanic | rest/consumer/helloclient.go:122-150 | the checked selection equals the code as written wherever that does not panic, and reports "endpoint not found" where it does |
| HelloClient.SelectedIsFirstUp | rest/consumer/helloclient.go:132-147 | a selected endpoint comes from the first UP instance in list order, from its first endpoint, with the scheme rewritten |
| HelloClient.FirstUpSelected | rest/consumer/helloclient.go:132-147 | conversely, the first UP instance decides: its first endpoint is selected with the scheme rewritten; no endpoint or an empty one gives "endpoint not found", and an unparsable one its parse error |
| HelloClient.NoUpInstanceFails | rest/consumer/helloclient.go:123-149 | an uncached provider gives "provider not found" and a list without UP instance gives "endpoint not found" |
| HelloClient.RestBecomesHttp | rest/consumer/helloclient.go:140-147 | a rest:// endpoint is called as http:// at the same address |
| HelloClient.OtherSchemesKept | rest/consumer/helloclient.go:140-147 | an endpoint whose scheme is non-empty, colon-free and not "rest" is called unchanged |
| HelloClient.EmptyEndpointListPanics | rest/consumer/helloclient.go:132-137 | as written, whenever the first UP instance of a cached list has no endpoints, the selection panics |
| HelloClient.CachedRestInstanceCalledOverHttp | rest/consumer/helloclient.go:132-147 | a cached list whose first instance is UP with endpoint rest://a yields http://a |
| HelloServer.Provider.RegisterAndHeartbeat | rest/provider/helloserver.go:70-112 | the calls made, the exit and the stored ids are those of Run: registration first, the ids stored as soon as each is known, then the heartbeat loop |
| HelloServer.Provider.RegisterInstanceAndHeartbeat | rest/provider/helloserver.go:84-111 | the calls, the exit and the stored instance id are those of AfterService; the stored service id does not change |
| HelloServer.Provider.Heartbeats | rest/provider/helloserver.go:93-111 | the calls and the exit are those of HeartbeatLoop, and the stored ids do not change |
| HelloServer.Provider.Destroy | rest/provider/helloserver.go:37-50 | the calls appended are those of Shutdown for the stored ids; the ids do not change |
| HelloServer.HeartbeatLoopSpec | rest/provider/helloserver.go:94-111 | every call is the heartbeat for the registered pair, one per tick up to the first cancel or failed heartbeat (that failing tick included), and the exit is Waiting, Cancelled or the Heartbeat-tagged failure accordingly |
| HelloServer.LaterEventsIgnored | rest/provider/helloserver.go:99-110 | once the loop has stopped, later events add no call and do not change the exit |
| HelloServer.HeartbeatLoopNeverFatal | rest/provider/helloserver.go:94-111 | the loop never ends fatally |
| HelloServer.InstanceRegisteredFirst | rest/provider/helloserver.go:84-90 | with the service id known, the instance registration with that id is the first call; the run is fatal iff it fails, and then it made no other call and stored no instance id |
| HelloServer.RegistrationBeforeHeartbeats | rest/provider/helloserver.go:73-90 | the register-if-absent requests come first, then the instance registration with the resulting service id; the run is fatal iff either registration failed, and then no heartbeat is sent and no instance id is stored |
| HelloServer.ShutdownOrder | rest/provider/helloserver.go:37-50 | instance deregistration comes first; the service is deregistered iff that succeeded, last, right after the 3 s pause |
| HelloServer.ShutdownDeregistersRegisteredIds | rest/provider/helloserver.go:37-50 | after any run that was not fatal, whether the service was found or created, shutdown deregisters the instance id the run registered under the service id it found or created, then, unless that call failed, pauses and deregisters that service id |

## Left out

- HTTP transport (`NewRequest`, `DoRequest` in rest/common/restful/restutil.go), TLS and JSON encoding: a call's reply is an input, and the rule that statuses 200-399 count as success lives in that helper.
- Websocket dial and reads: the dial error and the frames are inputs.
- YAML parsing, file reading and `os.Hostname`: the parsed file (or its error) and the machine's hostname are inputs to `LoadConfig`.
- `url.Values.Encode` escaping and ordering: a query is a map.
- `url.Parse`/`URL.String`: a scheme is the non-empty text before the first "://"; scheme lower-casing, escaping and the other parse errors are not modelled.
- RegistryClient.WatchService: the url.Parse error text after "parse repositry url faild: " is replaced by the URL that failed to parse.
- RegistryClient.WatchURL: a URL without a scheme is treated as unparsable, whereas url.Parse accepts some of those.
- HelloClient.ProviderURL: the same abstraction; an endpoint that url.Parse would accept without a "://" is reported as unparsable.
- The `sync.Map`, the goroutines and the load-modify-store race of `watchCallback`: the consumer's cache is one map field updated sequentially, and events are applied after the watch returns them rather than while it reads.
- Slice aliasing in `watchCallback` (the in-place write into the cached slice's array): the model stores a new sequence, which is the observable result.
- The ticker, its 30 s interval, `select` and signal handling: ticks and cancellation are events.
- The 3 s sleep in `destroy`: recorded as a `Pause(3)` call, not as time.
- `UnRegisterInstance` and `UnRegisterService` are not part of this model: they are recorded as calls, and only the instance call's error is an input.
- `sayHello`, the HTTP servers and their handlers, and `main`/`run`: I/O.
- Nil-pointer dereferences of missing configuration sections (for example `config.Provider` when the file has no provider section).
- A watch event without an instance: `json.Unmarshal` of `{}`, `null` or an error object leaves `Instance` nil, and `watchCallback` then dereferences it (rest/consumer/helloclient.go:109) and the process dies; the model's `Decodes` payload always carries an instance, so this panic is not modelled.
- Config.ConfigError: `LoadConfig`'s error texts are constructors rather than strings. The model drops the "address <addr>: " prefix of Go's `AddrError` that rest/common/config/config.go:87 formats, and the strconv error that rest/common/config/config.go:94 appends; for a port that parses but is 0 or below that error is nil and prints as "%!s(<nil>)", which `ListenPortWrong(port)` does not show.
- Logging (`log.Println`/`log.Printf` in rest/consumer/helloclient.go:94, 100 and 103, rest/common/servicecenter/v3/registery.go:168 and 175, rest/provider/helloserver.go:41, 47, 100, 104 and 108): output only, so it is not recorded.
- The servicecomb `proto` types: only the fields the core reads are kept.

## Findings

| source | as written | input that shows it | evidently intended | confidence | as-written member | corrected member |
|---|---|---|---|---|---|---|
| rest/consumer/helloclient.go:132-137 | the first UP instance's `Endpoints[0]` is read without checking that the list is non-empty | a cached provider list whose first UP instance has `Endpoints: []` (the start-up check only looks at the first instance, and watch events are cached unchecked) | report "endpoint not found" instead of panicking | not executed | HelloClient.EmptyEndpointListPanics | HelloClient.SelectEndpointChecked |
| rest/common/servicecenter/v3/registery.go:181 | the final error formats the function-level `err`, which is nil there because the loop's `err :=` declares a new variable | any watch that ends, by a read error or an undecodable text frame | the error carries the read or decode error that ended the loop | not executed | RegistryClient.WatchServiceAsWritten | RegistryClient.ReceiveFailedWithCauseKeepsCause |
