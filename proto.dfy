/**
 * The fields of the service-center protocol records that the core reads or
 * fills in: a service, an instance, a heartbeat element and a watch event.
 */
module Proto {

  datatype MicroService = MicroService(appId: string, serviceName: string, version: string)

  /** One registered process of a service. */
  datatype MicroServiceInstance = MicroServiceInstance(
    instanceId: string,
    hostName: string,
    status: string,
    endpoints: seq<string>)

  datatype HeartbeatSetElement = HeartbeatSetElement(serviceId: string, instanceId: string)

  /** An instance-change event pushed by the watcher. */
  datatype WatchInstanceResponse = WatchInstanceResponse(action: string, instance: MicroServiceInstance)

  const StatusUp := "UP"
}
