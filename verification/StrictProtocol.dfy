/** The commands the Agent sends to the Broker. */
module StrictProtocol {
  import opened StrictContract
  import opened CoreIngress

  datatype Command =
    | Status
    | PreparePolicy(policy: Policy)
    | CommitPolicy(revision: nat, digest: string, ingress: IngressSet)
    | ForceBlocking(revision: nat)
    | DisablePolicy(revision: nat)
}
