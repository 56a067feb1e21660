/**
 * The consumer (rest/consumer/helloclient.go): it registers its own service
 * if the registry does not know it, discovers the provider's instances and
 * caches them, keeps that cache current from watch events, and picks the
 * endpoint of the first instance that is UP.
 */
module HelloClient {
  import opened Types
  import opened Proto
  import Config
  import RC = RegistryClient
  import GoLib

  // ---------------------------------------------------------------------
  // The cached instance list and the effect of one watch event.

  /** Whether an instance has the id `id`. */
  function HasId(id: string): MicroServiceInstance -> bool {
    (p: MicroServiceInstance) => p.instanceId == id
  }

  /** The first cached instance with id `id`, if any. */
  function Lookup(pris: seq<MicroServiceInstance>, id: string): Option<MicroServiceInstance> {
    match FirstIndex(pris, HasId(id))
    case Some(i) => Some(pris[i])
    case None => None
  }

  /** At most one cached instance per instance id. */
  predicate UniqueIds(pris: seq<MicroServiceInstance>) {
    forall i, j :: 0 <= i < j < |pris| ==> pris[i].instanceId != pris[j].instanceId
  }

  /**
   * The list after one watch event: the first instance with the event's id
   * is replaced by the event's instance, or, if there is none, the instance
   * is appended.  The event's action is not consulted.
   */
  function ApplyChange(pris: seq<MicroServiceInstance>, ins: MicroServiceInstance): seq<MicroServiceInstance> {
    match FirstIndex(pris, HasId(ins.instanceId))
    case Some(i) => pris[i := ins]
    case None => pris + [ins]
  }

  /** An instance that is already cached is replaced where its first copy stands; nothing else moves. */
  lemma ApplyChangeReplacesFirst(pris: seq<MicroServiceInstance>, ins: MicroServiceInstance, i: nat)
    requires i < |pris| && pris[i].instanceId == ins.instanceId
    requires forall j :: 0 <= j < i ==> pris[j].instanceId != ins.instanceId
    ensures var r := ApplyChange(pris, ins);
      |r| == |pris| && r[i] == ins && forall j :: 0 <= j < |pris| && j != i ==> r[j] == pris[j]
  {
    FirstIndexAt(pris, HasId(ins.instanceId), i);
  }

  /** An instance that is not cached is appended after the unchanged list. */
  lemma ApplyChangeAppends(pris: seq<MicroServiceInstance>, ins: MicroServiceInstance)
    requires forall j :: 0 <= j < |pris| ==> pris[j].instanceId != ins.instanceId
    ensures var r := ApplyChange(pris, ins);
      |r| == |pris| + 1 && r[..|pris|] == pris && r[|pris|] == ins
  {
    assert forall j :: 0 <= j < |pris| ==> !HasId(ins.instanceId)(pris[j]);
  }

  /** After an event, its id finds the event's instance and every other id finds what it found before. */
  lemma ApplyChangeLookup(pris: seq<MicroServiceInstance>, ins: MicroServiceInstance, id: string)
    ensures Lookup(ApplyChange(pris, ins), id) == if ins.instanceId == id then Some(ins) else Lookup(pris, id)
  {
    var r := ApplyChange(pris, ins);
    match FirstIndex(pris, HasId(ins.instanceId))
    case Some(i) =>
      if ins.instanceId == id {
        FirstIndexAt(r, HasId(id), i);
      } else {
        match FirstIndex(pris, HasId(id))
        case Some(k) =>
          FirstIndexAt(r, HasId(id), k);
        case None =>
          assert forall j :: 0 <= j < |r| ==> !HasId(id)(r[j]);
      }
    case None =>
      match FirstIndex(pris, HasId(id))
      case Some(k) =>
        FirstIndexAt(r, HasId(id), k);
      case None =>
        if ins.instanceId == id {
          FirstIndexAt(r, HasId(id), |pris|);
        } else {
          assert forall j :: 0 <= j < |r| ==> !HasId(id)(r[j]);
        }
  }

  /** A list with one instance per id keeps that property after an event. */
  lemma ApplyChangeKeepsIdsUnique(pris: seq<MicroServiceInstance>, ins: MicroServiceInstance)
    requires UniqueIds(pris)
    ensures UniqueIds(ApplyChange(pris, ins))
  {
    var r := ApplyChange(pris, ins);
    match FirstIndex(pris, HasId(ins.instanceId))
    case Some(i) =>
      forall a, b | 0 <= a < b < |r| ensures r[a].instanceId != r[b].instanceId {
        if a != i && b != i {
          assert r[a] == pris[a] && r[b] == pris[b];
        } else if a == i {
          assert pris[a].instanceId == ins.instanceId && r[b] == pris[b];
        } else {
          assert pris[b].instanceId == ins.instanceId && r[a] == pris[a];
        }
      }
    case None =>
      forall a, b | 0 <= a < b < |r| ensures r[a].instanceId != r[b].instanceId {
        if b == |pris| {
          assert !HasId(ins.instanceId)(pris[a]);
        } else {
          assert r[a] == pris[a] && r[b] == pris[b];
        }
      }
  }

  /** The list after a run of watch events, applied in order. */
  function ApplyAll(pris: seq<MicroServiceInstance>, events: seq<WatchInstanceResponse>): seq<MicroServiceInstance> {
    if |events| == 0 then pris
    else ApplyChange(ApplyAll(pris, events[..|events| - 1]), events[|events| - 1].instance)
  }

  /** The instance of the last event for `id`, if any. */
  function LastEventFor(events: seq<WatchInstanceResponse>, id: string): Option<MicroServiceInstance> {
    if |events| == 0 then None
    else if events[|events| - 1].instance.instanceId == id then Some(events[|events| - 1].instance)
    else LastEventFor(events[..|events| - 1], id)
  }

  /**
   * Last write wins: after a run of events, an id finds the instance of the
   * last event for it, or, with no such event, what it found before.
   */
  lemma {:induction false} ApplyAllLookup(pris: seq<MicroServiceInstance>, events: seq<WatchInstanceResponse>, id: string)
    ensures Lookup(ApplyAll(pris, events), id) ==
      match LastEventFor(events, id)
      case Some(ins) => Some(ins)
      case None => Lookup(pris, id)
  {
    if |events| > 0 {
      var prefix := events[..|events| - 1];
      ApplyAllLookup(pris, prefix, id);
      ApplyChangeLookup(ApplyAll(pris, prefix), events[|events| - 1].instance, id);
    }
  }

  /** A run of events keeps at most one cached instance per id. */
  lemma {:induction false} ApplyAllKeepsIdsUnique(pris: seq<MicroServiceInstance>, events: seq<WatchInstanceResponse>)
    requires UniqueIds(pris)
    ensures UniqueIds(ApplyAll(pris, events))
  {
    if |events| > 0 {
      ApplyAllKeepsIdsUnique(pris, events[..|events| - 1]);
      ApplyChangeKeepsIdsUnique(ApplyAll(pris, events[..|events| - 1]), events[|events| - 1].instance);
    }
  }

  /** The cache after one event: only the provider's entry changes, and only if it is cached. */
  function CacheAfterEvent(caches: map<Config.ServiceConf, seq<MicroServiceInstance>>, provider: Config.ServiceConf,
                           event: WatchInstanceResponse): map<Config.ServiceConf, seq<MicroServiceInstance>> {
    if provider in caches then caches[provider := ApplyChange(caches[provider], event.instance)] else caches
  }

  /** The cache after a run of events. */
  function CacheAfter(caches: map<Config.ServiceConf, seq<MicroServiceInstance>>, provider: Config.ServiceConf,
                      events: seq<WatchInstanceResponse>): map<Config.ServiceConf, seq<MicroServiceInstance>> {
    if provider in caches then caches[provider := ApplyAll(caches[provider], events)] else caches
  }

  /** Applying one more event to the cache extends the run by that event. */
  lemma CacheAfterStep(caches: map<Config.ServiceConf, seq<MicroServiceInstance>>, provider: Config.ServiceConf,
                       events: seq<WatchInstanceResponse>, i: nat)
    requires i < |events|
    ensures CacheAfter(caches, provider, events[..i + 1]) == CacheAfterEvent(CacheAfter(caches, provider, events[..i]), provider, events[i])
  {
    assert events[..i + 1][..i] == events[..i];
  }

  // ---------------------------------------------------------------------
  // Endpoint selection.

  predicate IsUp(p: MicroServiceInstance) {
    p.status == StatusUp
  }

  /** Why no provider endpoint could be given. */
  datatype EndpointError =
    | ProviderNotCached(name: string)     // provider "%s" not found
    | EndpointUnparsable(endpoint: string) // parse provider endpoint faild: %s
    | NoEndpoint(name: string)            // provider "%s" endpoint not found

  /** The outcome of getProviderEndpoint; IndexPanic is the run-time panic of indexing an empty list. */
  datatype Selection = Endpoint(url: string) | Failed(error: EndpointError) | IndexPanic

  const RestScheme := "rest"
  const HttpScheme := "http"

  /** The endpoint as the consumer calls it: parsed, with a "rest" scheme turned into "http". */
  function ProviderURL(endpoint: string): Option<string> {
    match GoLib.SplitScheme(endpoint)
    case None => None
    case Some((scheme, rest)) => Some((if scheme == RestScheme then HttpScheme else scheme) + "://" + rest)
  }

  /** A "rest" endpoint is called over "http" at the same address. */
  lemma {:induction false} RestBecomesHttp(address: string)
    ensures ProviderURL(RestScheme + "://" + address) == Some(HttpScheme + "://" + address)
  {
    GoLib.SplitSchemeOfJoin(RestScheme, address);
  }

  /** Any other scheme is kept as it is. */
  lemma {:induction false} OtherSchemesKept(scheme: string, address: string)
    requires scheme != "" && ':' !in scheme && scheme != RestScheme
    ensures ProviderURL(scheme + "://" + address) == Some(scheme + "://" + address)
  {
    GoLib.SplitSchemeOfJoin(scheme, address);
  }

  /** The outcome for the first endpoint of the chosen instance ("" when none was found). */
  function FromEndpoint(endpoint: string, name: string): Selection {
    if endpoint == "" then Failed(NoEndpoint(name))
    else
      match ProviderURL(endpoint)
      case None => Failed(EndpointUnparsable(endpoint))
      case Some(u) => Endpoint(u)
  }

  /**
   * getProviderEndpoint as written: the first UP instance decides, and its
   * Endpoints[0] is read without checking that the list is non-empty.
   */
  function SelectEndpoint(caches: map<Config.ServiceConf, seq<MicroServiceInstance>>, provider: Config.ServiceConf): Selection {
    if provider !in caches then Failed(ProviderNotCached(provider.name))
    else
      var pris := caches[provider];
      match FirstIndex(pris, IsUp)
      case None => Failed(NoEndpoint(provider.name))
      case Some(i) =>
        if |pris[i].endpoints| == 0 then IndexPanic
        else FromEndpoint(pris[i].endpoints[0], provider.name)
  }

  /** As written, getProviderEndpoint panics whenever the first UP instance of the cached list has no endpoints. */
  lemma EmptyEndpointListPanics(caches: map<Config.ServiceConf, seq<MicroServiceInstance>>, provider: Config.ServiceConf, i: nat)
    requires provider in caches && i < |caches[provider]| && IsUp(caches[provider][i])
    requires forall j :: 0 <= j < i ==> !IsUp(caches[provider][j])
    requires |caches[provider][i].endpoints| == 0
    ensures SelectEndpoint(caches, provider) == IndexPanic
  {
    FirstIndexAt(caches[provider], IsUp, i);
  }

  /**
   * getProviderEndpoint with the missing length check: a first UP instance
   * without endpoints leaves the endpoint empty, which is reported as
   * "endpoint not found".
   */
  function SelectEndpointChecked(caches: map<Config.ServiceConf, seq<MicroServiceInstance>>, provider: Config.ServiceConf): (r: Selection)
    ensures !r.IndexPanic?
  {
    if provider !in caches then Failed(ProviderNotCached(provider.name))
    else
      var pris := caches[provider];
      match FirstIndex(pris, IsUp)
      case None => Failed(NoEndpoint(provider.name))
      case Some(i) =>
        var endpoint := if |pris[i].endpoints| == 0 then "" else pris[i].endpoints[0];
        FromEndpoint(endpoint, provider.name)
  }

  /** The check changes nothing where the code as written does not panic. */
  lemma CheckedAgreesWithoutPanic(caches: map<Config.ServiceConf, seq<MicroServiceInstance>>, provider: Config.ServiceConf)
    ensures SelectEndpoint(caches, provider) != IndexPanic ==> SelectEndpointChecked(caches, provider) == SelectEndpoint(caches, provider)
    ensures SelectEndpoint(caches, provider) == IndexPanic ==> SelectEndpointChecked(caches, provider) == Failed(NoEndpoint(provider.name))
  {
  }

  /**
   * A selected endpoint comes from the first UP instance of the provider's
   * list, from that instance's first endpoint, with its scheme rewritten.
   */
  lemma {:induction false} SelectedIsFirstUp(caches: map<Config.ServiceConf, seq<MicroServiceInstance>>, provider: Config.ServiceConf)
    requires SelectEndpointChecked(caches, provider).Endpoint?
    ensures provider in caches
    ensures exists i ::
      && 0 <= i < |caches[provider]| && IsUp(caches[provider][i])
      && (forall j :: 0 <= j < i ==> !IsUp(caches[provider][j]))
      && |caches[provider][i].endpoints| > 0
      && ProviderURL(caches[provider][i].endpoints[0]) == Some(SelectEndpointChecked(caches, provider).url)
  {
    var pris := caches[provider];
    var i := FirstIndex(pris, IsUp).value;
    assert IsUp(pris[i]) && forall j :: 0 <= j < i ==> !IsUp(pris[j]);
  }

  /**
   * The converse: the first UP instance of the provider's list decides the
   * selection.  Its first endpoint is called, with the scheme rewritten; an
   * instance without a (non-empty) first endpoint gives "endpoint not
   * found", and an endpoint that does not parse is reported as such.
   */
  lemma {:induction false} FirstUpSelected(caches: map<Config.ServiceConf, seq<MicroServiceInstance>>, provider: Config.ServiceConf, i: nat)
    requires provider in caches && i < |caches[provider]| && IsUp(caches[provider][i])
    requires forall j :: 0 <= j < i ==> !IsUp(caches[provider][j])
    ensures var eps := caches[provider][i].endpoints;
      && (|eps| == 0 || eps[0] == "" ==> SelectEndpointChecked(caches, provider) == Failed(NoEndpoint(provider.name)))
      && (|eps| > 0 && eps[0] != "" && ProviderURL(eps[0]).Some? ==>
            SelectEndpointChecked(caches, provider) == Endpoint(ProviderURL(eps[0]).value))
      && (|eps| > 0 && eps[0] != "" && ProviderURL(eps[0]).None? ==>
            SelectEndpointChecked(caches, provider) == Failed(EndpointUnparsable(eps[0])))
  {
    FirstIndexAt(caches[provider], IsUp, i);
  }

  /** The selection is an error when the provider is not cached or no instance is UP. */
  lemma NoUpInstanceFails(caches: map<Config.ServiceConf, seq<MicroServiceInstance>>, provider: Config.ServiceConf)
    ensures provider !in caches ==> SelectEndpointChecked(caches, provider) == Failed(ProviderNotCached(provider.name))
    ensures provider in caches && (forall j :: 0 <= j < |caches[provider]| ==> !IsUp(caches[provider][j])) ==>
      SelectEndpointChecked(caches, provider) == Failed(NoEndpoint(provider.name))
  {
  }

  // ---------------------------------------------------------------------
  // The consumer's state.

  /** The provider a consumer calls, and its cache of discovered provider instances. */
  class Consumer {
    const provider: Config.ServiceConf
    var caches: map<Config.ServiceConf, seq<MicroServiceInstance>>

    constructor(provider: Config.ServiceConf)
      ensures this.provider == provider && caches == map[]
    {
      this.provider := provider;
      caches := map[];
    }

    /**
     * discoveryProviderAndCache: discover the provider's instances on
     * behalf of consumer `svcID` and cache them, or stop the process if
     * discovery fails, finds nothing, or the first instance has no endpoint.
     */
    method DiscoveryProviderAndCache(c: RC.Client, svcID: string, reply: RC.Reply) returns (fatal: Option<string>)
      modifies this
      ensures fatal.None? <==> reply.Answered? && |reply.body.instances| > 0 && |reply.body.instances[0].endpoints| > 0
      ensures reply.CallFailed? ==> fatal == Some(RC.OpError(RC.DiscoveryOp, reply.cause))
      ensures fatal.None? ==> caches == old(caches)[provider := reply.body.instances]
      ensures fatal.Some? ==> caches == old(caches)
    {
      var call := RC.Discovery(c, svcID, provider, reply);
      if call.result.Err? {
        return Some(call.result.error);
      }
      var pris := call.result.value;
      if |pris| == 0 {
        return Some("provider not found, serviceName: " + provider.name + " appID: " + provider.appId
                    + ", version: " + provider.version);
      }
      if |pris[0].endpoints| == 0 {
        return Some("provider endpoints is empty");
      }
      caches := caches[provider := pris];
      return None;
    }

    /** watchCallback: apply one event to the cached provider list, if the provider is cached. */
    method WatchCallback(event: WatchInstanceResponse)
      modifies this
      ensures caches == CacheAfterEvent(old(caches), provider, event)
    {
      if provider !in caches {
        return;
      }
      var pris := caches[provider];
      var renew := false;
      var i := 0;
      while i < |pris|
        invariant 0 <= i <= |pris|
        invariant forall j :: 0 <= j < i ==> !HasId(event.instance.instanceId)(pris[j])
        invariant pris == caches[provider] && !renew
      {
        if pris[i].instanceId == event.instance.instanceId {
          FirstIndexAt(pris, HasId(event.instance.instanceId), i);
          pris := pris[i := event.instance];
          renew := true;
          break;
        }
        i := i + 1;
      }
      if !renew {
        pris := pris + [event.instance];
      }
      caches := caches[provider := pris];
    }

    /**
     * watch: subscribe to the provider's changes and apply each delivered
     * event in order; the watch error is returned.
     */
    method Watch(c: RC.Client, svcID: string, dial: Option<string>, frames: seq<RC.Frame>)
      returns (events: seq<WatchInstanceResponse>, err: string)
      modifies this
      ensures RC.WatchURL(c, svcID).Some? && dial.None? ==> events == RC.Delivered(frames)
      ensures RC.WatchURL(c, svcID).None? || dial.Some? ==> events == []
      ensures caches == CacheAfter(old(caches), provider, events)
      ensures RC.OperationOf(err) == Some(RC.WatchServiceOp)
    {
      var target;
      events, err, target := RC.WatchService(c, svcID, dial, frames);
      var i := 0;
      while i < |events|
        invariant 0 <= i <= |events|
        invariant caches == CacheAfter(old(caches), provider, events[..i])
      {
        CacheAfterStep(old(caches), provider, events, i);
        WatchCallback(events[i]);
        i := i + 1;
      }
      assert events[..i] == events;
    }

    /**
     * getProviderEndpoint: scan the cached list for the first UP instance
     * and call it at its first endpoint, with the length check of
     * SelectEndpointChecked.
     */
    method GetProviderEndpoint() returns (r: Selection)
      ensures r == SelectEndpointChecked(caches, provider)
    {
      if provider !in caches {
        return Failed(ProviderNotCached(provider.name));
      }
      var endpoint := "";
      var pris := caches[provider];
      var i := 0;
      while i < |pris|
        invariant 0 <= i <= |pris|
        invariant forall j :: 0 <= j < i ==> !IsUp(pris[j])
        invariant endpoint == ""
      {
        if pris[i].status == StatusUp {
          FirstIndexAt(pris, IsUp, i);
          if |pris[i].endpoints| > 0 {
            endpoint := pris[i].endpoints[0];
          }
          break;
        }
        i := i + 1;
      }
      r := FromEndpoint(endpoint, provider.name);
    }
  }

  /** Once a consumer has cached a list whose first instance is UP with a "rest" endpoint first, it calls that endpoint over http. */
  lemma {:induction false} CachedRestInstanceCalledOverHttp(
    caches: map<Config.ServiceConf, seq<MicroServiceInstance>>, provider: Config.ServiceConf, address: string)
    requires provider in caches && |caches[provider]| > 0
    requires IsUp(caches[provider][0])
    requires |caches[provider][0].endpoints| > 0 && caches[provider][0].endpoints[0] == RestScheme + "://" + address
    ensures SelectEndpointChecked(caches, provider) == Endpoint(HttpScheme + "://" + address)
  {
    FirstIndexAt(caches[provider], IsUp, 0);
    RestBecomesHttp(address);
  }
}
