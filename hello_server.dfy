/**
 * The provider (rest/provider/helloserver.go): it registers its service if
 * absent, registers its instance, keeps the instance alive with one
 * heartbeat per tick until a heartbeat fails or the program is cancelled,
 * and on shutdown deregisters the instance before the service.
 *
 * Ticks and cancellation arrive as a sequence of events; the registry's
 * replies are inputs; every call the provider makes is recorded, in order,
 * in `effects`.
 */
module HelloServer {
  import opened Types
  import Config
  import RC = RegistryClient
  import Bootstrap

  /** What the heartbeat loop's select receives: a tick (with the reply to its heartbeat) or cancellation. */
  datatype Event = Tick(heartbeat: RC.Reply) | Cancel

  /** A call the provider makes. */
  datatype Effect =
    | Sent(request: RC.Request)
    | UnRegisterInstanceCall(serviceId: string, instanceId: string)
    | Pause(seconds: nat)
    | UnRegisterServiceCall(serviceId: string)

  /** How registerAndHeartbeat ended, or Waiting when the events ran out with the loop still running. */
  datatype Exit = Fatal(message: string) | HeartbeatStopped(error: string) | Cancelled | Waiting

  /** The seconds destroy waits between the two deregistrations. */
  const DeregisterPause: nat := 3

  function SentAll(requests: seq<RC.Request>): (r: seq<Effect>)
    ensures |r| == |requests|
    ensures forall k :: 0 <= k < |r| ==> r[k] == Sent(requests[k])
  {
    if requests == [] then [] else [Sent(requests[0])] + SentAll(requests[1..])
  }

  /** An event that ends the heartbeat loop: cancellation or a tick whose heartbeat fails. */
  predicate EndsLoop(e: Event) {
    e.Cancel? || e.heartbeat.CallFailed?
  }

  /** The heartbeat loop for the registered pair: the calls it makes and how it ends. */
  function HeartbeatLoop(c: RC.Client, svcID: string, insID: string, events: seq<Event>): (seq<Effect>, Exit) {
    if events == [] then ([], Waiting)
    else
      match events[0]
      case Cancel => ([], Cancelled)
      case Tick(reply) =>
        var hb := RC.Heartbeat(c, svcID, insID, reply);
        if hb.result.Err? then ([Sent(hb.request)], HeartbeatStopped(hb.result.error))
        else
          var rest := HeartbeatLoop(c, svcID, insID, events[1..]);
          ([Sent(hb.request)] + rest.0, rest.1)
  }

  /** The calls and the ids registerAndHeartbeat stores, and how it ends. */
  datatype Outcome = Outcome(effects: seq<Effect>, serviceID: Option<string>, instanceID: Option<string>, exit: Exit)

  /**
   * The second half of registerAndHeartbeat, once the service id is known:
   * register the instance with it (a failure is fatal), store the instance
   * id, then run the heartbeat loop.
   */
  function AfterService(c: RC.Client, svcID: string, ins: Config.InstanceConf, register: RC.Reply, events: seq<Event>): Outcome {
    var reg := RC.RegisterInstance(c, svcID, ins, register);
    if reg.result.Err? then Outcome([Sent(reg.request)], Some(svcID), None, Fatal(reg.result.error))
    else
      var loop := HeartbeatLoop(c, svcID, reg.result.value, events);
      Outcome([Sent(reg.request)] + loop.0, Some(svcID), Some(reg.result.value), loop.1)
  }

  /**
   * registerAndHeartbeat: register the service if absent (a failure is
   * fatal), store its id, then continue with AfterService.
   */
  function Run(c: RC.Client, svc: Config.ServiceConf, ins: Config.InstanceConf,
               lookup: RC.Reply, create: RC.Reply, register: RC.Reply, events: seq<Event>): Outcome {
    var boot := Bootstrap.RegisterServiceIfAbsent(c, svc, lookup, create);
    if boot.outcome.Err? then Outcome(SentAll(boot.requests), None, None, Fatal(boot.outcome.error))
    else
      var rest := AfterService(c, boot.outcome.value, ins, register, events);
      rest.(effects := SentAll(boot.requests) + rest.effects)
  }

  /** destroy: deregister the instance; only if that succeeds, pause and deregister the service. */
  function Shutdown(serviceID: string, instanceID: string, instanceErr: Option<string>): seq<Effect> {
    [UnRegisterInstanceCall(serviceID, instanceID)]
    + if instanceErr.Some? then [] else [Pause(DeregisterPause), UnRegisterServiceCall(serviceID)]
  }

  /** The provider's package state: the registered ids and the calls made so far. */
  class Provider {
    var serviceID: string
    var instanceID: string
    var effects: seq<Effect>

    constructor()
      ensures serviceID == "" && instanceID == "" && effects == []
    {
      serviceID, instanceID, effects := "", "", [];
    }

    /** registerAndHeartbeat, driven by `events`; the replies are the registry's answers. */
    method RegisterAndHeartbeat(c: RC.Client, svc: Config.ServiceConf, ins: Config.InstanceConf,
                                lookup: RC.Reply, create: RC.Reply, register: RC.Reply, events: seq<Event>)
      returns (exit: Exit)
      modifies this
      ensures effects == old(effects) + Run(c, svc, ins, lookup, create, register, events).effects
      ensures exit == Run(c, svc, ins, lookup, create, register, events).exit
      ensures serviceID == Run(c, svc, ins, lookup, create, register, events).serviceID.GetOr(old(serviceID))
      ensures instanceID == Run(c, svc, ins, lookup, create, register, events).instanceID.GetOr(old(instanceID))
    {
      var boot := Bootstrap.RegisterServiceIfAbsent(c, svc, lookup, create);
      effects := effects + SentAll(boot.requests);
      if boot.outcome.Err? {
        return Fatal(boot.outcome.error);
      }
      var svcID := boot.outcome.value;
      serviceID := svcID;
      exit := RegisterInstanceAndHeartbeat(c, svcID, ins, register, events);
      assert effects == old(effects) + (SentAll(boot.requests) + AfterService(c, svcID, ins, register, events).effects);
    }

    /** The part of registerAndHeartbeat after serviceID is stored. */
    method RegisterInstanceAndHeartbeat(c: RC.Client, svcID: string, ins: Config.InstanceConf, register: RC.Reply, events: seq<Event>)
      returns (exit: Exit)
      modifies this
      ensures effects == old(effects) + AfterService(c, svcID, ins, register, events).effects
      ensures exit == AfterService(c, svcID, ins, register, events).exit
      ensures serviceID == old(serviceID)
      ensures instanceID == AfterService(c, svcID, ins, register, events).instanceID.GetOr(old(instanceID))
    {
      var reg := RC.RegisterInstance(c, svcID, ins, register);
      effects := effects + [Sent(reg.request)];
      if reg.result.Err? {
        return Fatal(reg.result.error);
      }
      var insID := reg.result.value;
      instanceID := insID;
      exit := Heartbeats(c, svcID, insID, events);
    }

    /** The ticker loop of registerAndHeartbeat: one heartbeat per tick until a failure or cancellation. */
    method Heartbeats(c: RC.Client, svcID: string, insID: string, events: seq<Event>) returns (exit: Exit)
      modifies this
      ensures effects == old(effects) + HeartbeatLoop(c, svcID, insID, events).0
      ensures exit == HeartbeatLoop(c, svcID, insID, events).1
      ensures serviceID == old(serviceID) && instanceID == old(instanceID)
    {
      ghost var done: seq<Effect> := [];
      var i := 0;
      assert events[0..] == events;
      assert [] + HeartbeatLoop(c, svcID, insID, events).0 == HeartbeatLoop(c, svcID, insID, events).0;
      while i < |events|
        invariant 0 <= i <= |events|
        invariant serviceID == old(serviceID) && instanceID == old(instanceID)
        invariant effects == old(effects) + done
        invariant var rest := HeartbeatLoop(c, svcID, insID, events[i..]);
          HeartbeatLoop(c, svcID, insID, events) == (done + rest.0, rest.1)
      {
        assert events[i..][0] == events[i] && events[i..][1..] == events[i + 1..];
        match events[i]
        case Cancel =>
          return Cancelled;
        case Tick(reply) =>
          var hb := RC.Heartbeat(c, svcID, insID, reply);
          ghost var prev := done;
          effects := effects + [Sent(hb.request)];
          done := done + [Sent(hb.request)];
          if hb.result.Err? {
            return HeartbeatStopped(hb.result.error);
          }
          ghost var rest := HeartbeatLoop(c, svcID, insID, events[i + 1..]);
          assert done + rest.0 == prev + ([Sent(hb.request)] + rest.0);
        i := i + 1;
      }
      return Waiting;
    }

    /** destroy: `instanceErr` is UnRegisterInstance's error, if any. */
    method Destroy(instanceErr: Option<string>)
      modifies this
      ensures effects == old(effects) + Shutdown(serviceID, instanceID, instanceErr)
      ensures serviceID == old(serviceID) && instanceID == old(instanceID)
    {
      effects := effects + [UnRegisterInstanceCall(serviceID, instanceID)];
      if instanceErr.Some? {
        return;
      }
      effects := effects + [Pause(DeregisterPause)];
      effects := effects + [UnRegisterServiceCall(serviceID)];
    }
  }

  // ---------------------------------------------------------------------
  // Properties.

  /** Whether a call is a heartbeat. */
  predicate IsHeartbeat(e: Effect) {
    e.Sent? && e.request.body.HeartbeatSetBody?
  }

  /**
   * The heartbeat loop sends one heartbeat, for the registered pair, per
   * tick up to the first event that ends it, including a failing tick and
   * excluding a cancellation; it ends Waiting, Cancelled or stopped by the
   * first failed heartbeat's error accordingly.
   */
  lemma {:induction false} HeartbeatLoopSpec(c: RC.Client, svcID: string, insID: string, events: seq<Event>)
    ensures var k := FirstIndex(events, EndsLoop).GetOr(|events|);
      var (calls, exit) := HeartbeatLoop(c, svcID, insID, events);
      && k <= |events|
      && (forall j :: 0 <= j < |calls| ==> calls[j] == Sent(RC.HeartbeatRequest(c, svcID, insID)))
      && |calls| == (if k < |events| && events[k].Tick? then k + 1 else k)
      && (k == |events| ==> exit == Waiting)
      && (k < |events| && events[k].Cancel? ==> exit == Cancelled)
      && (k < |events| && events[k].Tick? ==>
            exit == HeartbeatStopped(RC.OpError(RC.HeartbeatOp, events[k].heartbeat.cause)))
  {
    if events != [] {
      HeartbeatLoopSpec(c, svcID, insID, events[1..]);
    }
  }

  /** Once the loop has ended, later events change nothing: no heartbeat follows a failure or a cancellation. */
  lemma {:induction false} LaterEventsIgnored(c: RC.Client, svcID: string, insID: string, events: seq<Event>, later: seq<Event>)
    requires HeartbeatLoop(c, svcID, insID, events).1 != Waiting
    ensures HeartbeatLoop(c, svcID, insID, events + later) == HeartbeatLoop(c, svcID, insID, events)
  {
    assert (events + later)[0] == events[0];
    if events[0].Tick? && events[0].heartbeat.Answered? {
      assert (events + later)[1..] == events[1..] + later;
      LaterEventsIgnored(c, svcID, insID, events[1..], later);
    }
  }

  /**
   * Once the service id is known: the instance is registered with it first;
   * the run is fatal exactly when that registration fails, and then it made
   * no other call and stored no instance id.
   */
  lemma {:induction false} InstanceRegisteredFirst(c: RC.Client, svcID: string, ins: Config.InstanceConf, register: RC.Reply, events: seq<Event>)
    ensures var r := AfterService(c, svcID, ins, register, events);
      && |r.effects| >= 1 && r.effects[0] == Sent(RC.RegisterInstanceRequest(c, svcID, ins))
      && r.serviceID == Some(svcID)
      && (r.exit.Fatal? <==> register.CallFailed?)
      && (r.exit.Fatal? ==> r.instanceID.None? && |r.effects| == 1)
      && (r.instanceID.Some? ==> register.Answered? && r.instanceID == Some(register.body.instanceId))
  {
    var reg := RC.RegisterInstance(c, svcID, ins, register);
    if reg.result.Ok? {
      HeartbeatLoopNeverFatal(c, svcID, reg.result.value, events);
    }
  }

  /**
   * Registration comes first: the service lookup (and creation when absent),
   * then the instance registration with the resulting service id; if either
   * fails the run is fatal and no heartbeat is ever sent.
   */
  lemma {:induction false} RegistrationBeforeHeartbeats(c: RC.Client, svc: Config.ServiceConf, ins: Config.InstanceConf,
                                                        lookup: RC.Reply, create: RC.Reply, register: RC.Reply, events: seq<Event>)
    ensures var r := Run(c, svc, ins, lookup, create, register, events);
      var boot := Bootstrap.RegisterServiceIfAbsent(c, svc, lookup, create);
      && r.effects[..|boot.requests|] == SentAll(boot.requests)
      && (r.exit.Fatal? <==> boot.outcome.Err? || register.CallFailed?)
      && (r.exit.Fatal? ==> r.instanceID.None? && forall j :: 0 <= j < |r.effects| ==> !IsHeartbeat(r.effects[j]))
      && (boot.outcome.Ok? ==>
            r.serviceID == Some(boot.outcome.value)
            && r.effects[|boot.requests|] == Sent(RC.RegisterInstanceRequest(c, boot.outcome.value, ins)))
      && (r.instanceID.Some? ==> register.Answered? && r.instanceID == Some(register.body.instanceId))
  {
    var boot := Bootstrap.RegisterServiceIfAbsent(c, svc, lookup, create);
    Bootstrap.RegistersOnlyWhenAbsent(c, svc, lookup, create);
    var sent := SentAll(boot.requests);
    assert forall j :: 0 <= j < |sent| ==> !IsHeartbeat(sent[j]);
    if boot.outcome.Ok? {
      var rest := AfterService(c, boot.outcome.value, ins, register, events);
      InstanceRegisteredFirst(c, boot.outcome.value, ins, register, events);
      assert (sent + rest.effects)[..|sent|] == sent;
      assert (sent + rest.effects)[|sent|] == rest.effects[0];
    }
  }

  /** The heartbeat loop never ends fatally. */
  lemma {:induction false} HeartbeatLoopNeverFatal(c: RC.Client, svcID: string, insID: string, events: seq<Event>)
    ensures !HeartbeatLoop(c, svcID, insID, events).1.Fatal?
  {
    if events != [] && events[0].Tick? && events[0].heartbeat.Answered? {
      HeartbeatLoopNeverFatal(c, svcID, insID, events[1..]);
    }
  }

  /**
   * Shutdown deregisters the instance first; the service is deregistered,
   * last and after the pause, only when the instance call succeeded.
   */
  lemma ShutdownOrder(serviceID: string, instanceID: string, instanceErr: Option<string>)
    ensures var s := Shutdown(serviceID, instanceID, instanceErr);
      && s[0] == UnRegisterInstanceCall(serviceID, instanceID)
      && (instanceErr.Some? <==> forall j :: 0 <= j < |s| ==> !s[j].UnRegisterServiceCall?)
      && (forall j :: 0 <= j < |s| && s[j].UnRegisterServiceCall? ==>
            j == |s| - 1 && s[j - 1] == Pause(DeregisterPause) && s[j].serviceId == serviceID)
  {
    if instanceErr.None? {
      assert Shutdown(serviceID, instanceID, instanceErr)[2].UnRegisterServiceCall?;
    }
  }

  /**
   * A provider whose registration went through (the service found or
   * created, the instance registered) and is then shut down deregisters
   * exactly the ids it registered: the instance first, and the service after
   * the pause unless the instance call failed.
   */
  lemma {:induction false} ShutdownDeregistersRegisteredIds(c: RC.Client, svc: Config.ServiceConf, ins: Config.InstanceConf,
                                                            lookup: RC.Reply, create: RC.Reply, register: RC.Reply,
                                                            events: seq<Event>, instanceErr: Option<string>)
    requires !Run(c, svc, ins, lookup, create, register, events).exit.Fatal?
    ensures var r := Run(c, svc, ins, lookup, create, register, events);
      var boot := Bootstrap.RegisterServiceIfAbsent(c, svc, lookup, create);
      && boot.outcome.Ok? && register.Answered?
      && Shutdown(r.serviceID.GetOr(""), r.instanceID.GetOr(""), instanceErr)
        == [UnRegisterInstanceCall(boot.outcome.value, register.body.instanceId)]
           + (if instanceErr.Some? then [] else [Pause(DeregisterPause), UnRegisterServiceCall(boot.outcome.value)])
  {
    RegistrationBeforeHeartbeats(c, svc, ins, lookup, create, register, events);
  }
}
