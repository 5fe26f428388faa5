/** What the back-ends publish to the caller's stream. */
module Events {
  import opened Seqs
  import Txt

  /** The step a browse failed in; error texts are not modelled. */
  datatype Stage =
    | CreateConnection
    | SocketDescriptor
    | Poll
    | ProcessResult
    | StartBrowse(regtype: string)
    | BrowseReply
    | Subscribe
    | TypeBrowser
    | TypeBrowserSignal
    | InstanceBrowser(serviceType: string)
    | InstanceBrowserSignal(forType: string)

  datatype Error =
    | DnsSdUnavailable
    | InteriorNul(param: string, position: nat)
    | BrowseFailed(stage: Stage, code: int)
    | ResolveFailed(name: string)

  type Address = Txt.bytes

  datatype Service = Service(
    name: string, serviceType: string, domain: string, hostName: string, port: nat,
    addresses: seq<Address>, txt: seq<Txt.TxtRecord>, interface: Option<nat>)

  datatype Event =
    | Found(service: Service)
    | Removed(name: string, serviceType: string, domain: string, interface: Option<nat>)
    | Failed(error: Error)

  /** `NonZeroU32::new`. */
  function NonZero(index: nat): (r: Option<nat>)
    ensures r.None? <==> index == 0
    ensures r.Some? ==> r.value == index
  {
    if index == 0 then None else Some(index)
  }
}
