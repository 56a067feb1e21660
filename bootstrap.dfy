/**
 * The start-up step both programs share (registerService in the consumer,
 * the first half of registerAndHeartbeat in the provider): look the service
 * up and create it only when the registry gave no id.
 */
module Bootstrap {
  import opened Types
  import Config
  import RC = RegistryClient

  /** The requests a start-up step sent, in order, and its outcome (Err: the process stops). */
  datatype Startup<T> = Startup(requests: seq<RC.Request>, outcome: Result<T, string>)

  /**
   * Look the service up, ignoring a failed lookup, and create it only when no
   * id came back.  `lookup` and `create` are the registry's replies to the
   * two calls.
   */
  function RegisterServiceIfAbsent(c: RC.Client, svc: Config.ServiceConf, lookup: RC.Reply, create: RC.Reply): Startup<string> {
    var found := RC.GetServiceID(c, svc, lookup);
    var svcID := found.result.GetOr("");
    if svcID != "" then Startup([found.request], Ok(svcID))
    else
      var created := RC.RegisterService(c, svc, create);
      Startup([found.request, created.request], created.result)
  }

  /**
   * The service is created exactly when the lookup gave no id (it failed or
   * answered ""); otherwise the looked-up id is used and nothing else is
   * sent.  A failed creation is reported with the RegisterService tag.
   */
  lemma RegistersOnlyWhenAbsent(c: RC.Client, svc: Config.ServiceConf, lookup: RC.Reply, create: RC.Reply)
    ensures var s := RegisterServiceIfAbsent(c, svc, lookup, create);
      var absent := lookup.CallFailed? || lookup.body.serviceId == "";
      && 1 <= |s.requests| <= 2
      && s.requests[0] == RC.ExistenceRequest(c, svc)
      && (absent <==> |s.requests| == 2)
      && (absent ==> s.requests[1] == RC.RegisterServiceRequest(c, svc))
      && (absent && create.Answered? ==> s.outcome == Ok(create.body.serviceId))
      && (absent && create.CallFailed? ==> s.outcome.Err? && RC.OperationOf(s.outcome.error) == Some(RC.RegisterServiceOp))
      && (!absent ==> s.outcome == Ok(lookup.body.serviceId))
  {
  }
}
