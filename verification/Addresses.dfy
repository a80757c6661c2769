/** From the class object to the address that its ingresses get. */
module Addresses {
  import opened Options
  import opened Kube
  import opened Tree
  import opened Payload
  import opened PayloadFields
  import opened Controller
  import Api = AlbApi
  import Stores

  /** What the server fills in. */
  lemma MaterializeFills(a: Stores.Addresses, p: Api.Payload)
    ensures var lb := Stores.Materialize(a, p);
      var private := p.options.Some? && p.options.value.privateNetworkOnly == Some(true);
      && lb.spec.version == Some(if p.version in {None, Some("")} then "0" else p.version.value + "+1")
      && lb.spec.options == p.options && lb.privateAddress == (if private then Some(a.private) else None)
      && lb.spec.externalAddress == (if private || p.externalAddress.Some? then p.externalAddress else Some(a.external))
      && lb.status == Some(if lb.spec.externalAddress == Some("127.0.0.1") then Api.ERROR else Api.READY)
  {
  }

  /** The address that the class asks for, or that the server assigns. */
  function AddressOf(c: IngressClass, a: Stores.Addresses): string {
    if c.externalIP != "" then c.externalIP
    else if c.internal == Given(true) then a.private
    else a.external
  }

  /** A stored load balancer of a valid class: the ingresses get the address that the class gives, else the private one
      of an internal class, else the one of the server. Then the class is done, unless the address does not exist. */
  lemma ClassGetsItsAddress(c: IngressClass, s: ClassSettings, config: Config, t: WorkTree, ids: map<string, string>,
                            p: Api.Payload, a: Stores.Addresses)
    requires SettleClass(c) == Ok(s) && a.external != "" && a.private != ""
    requires || IsCreatePayload(Frame(c, s, config), t, ids, p)
             || exists existing :: IsUpdatePayload(Frame(c, s, config), t, ids, existing, p)
    requires a.external != "127.0.0.1"
    ensures var lb := Stores.Materialize(a, p);
      && StatusAddress(lb) == AddressOf(c, a)
      && OutcomeFor(lb) == if c.externalIP == "127.0.0.1" then RequeueAfter(300) else Done
  {
    hide IsCreatePayload, IsUpdatePayload, SettleClass, Labelled, LimitsAccess, Stores.Materialize, StatusAddress,
         OutcomeFor;
    if IsCreatePayload(Frame(c, s, config), t, ids, p) {
      CreateIsAskedByClass(c, s, config, t, ids, p);
    } else {
      var existing :| IsUpdatePayload(Frame(c, s, config), t, ids, existing, p);
      UpdateIsAskedByClass(c, s, config, t, ids, existing, p);
    }
    MaterializeFills(a, p);
    var lb := Stores.Materialize(a, p);
    StatusAddressIff(lb, AddressOf(c, a));
    OutcomeIsDoneIff(lb);
  }
}
