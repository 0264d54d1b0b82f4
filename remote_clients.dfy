/**
 * The two remote clients the cleanup workflow drives, the VMware Cloud
 * Director client and the NSX-T client, reduced to what the workflow sees of
 * them: each call is appended to one shared trace, and whether it raises and
 * what it returns are decided by an oracle from the call's position in that
 * trace. For a given run the position fixes both the call and everything done
 * before it, so an oracle over positions can describe every behaviour an
 * oracle over histories can.
 */
module RemoteClients {
  import opened EdgeGateways

  datatype Option<T> = None | Some(value: T)

  /** What `getProviderVDCId` returns: the id and whether the provider VDC is NSX-T backed. */
  datatype ProviderVDC = ProviderVDC(id: string, isNSXTbacked: bool)

  /** One entry of the list `getOrgVDCNetworks` returns. */
  datatype OrgVDCNetwork = OrgVDCNetwork(name: string, id: string)

  /** One remote call, with the arguments it was given. */
  datatype Call =
    // VMware Cloud Director client
    | VcdLogin
    | GetOrgUrl(orgName: string)
    | GetProviderVDCId(providerVDCName: string)
    | GetOrgVDCDetails(orgUrl: string, orgVDCName: string, orgVDCType: string, saveResponse: bool)
    | ValidateOrgVDCNSXbacking(orgVDCId: string, providerVDCId: string, isNSXTbacked: bool)
    | GetOrgVDCEdgeGateway(orgVDCId: string)
    | ValidateTargetOrgVDCState(orgVDCId: string)
    | GetOrgVDCNetworks(orgVDCId: string, orgVDCNetworkType: string, saveResponse: bool)
    | ValidateVappVMsMediaState(orgVDCId: string, raiseError: bool)
    | MigrateCatalogItems(sourceOrgVDCId: string, targetOrgVDCId: string, orgUrl: string)
    | DeleteOrgVDCNetworks(orgVDCId: string)
    | DeleteNsxVBackedOrgVDCEdgeGateways(orgVDCId: string)
    | DeleteOrgVDC(orgVDCId: string)
    | RenameTargetOrgVDCNetworks(orgVDCId: string)
    | RenameOrgVDC(sourceOrgVDCName: string, targetOrgVDCId: string)
    | UpdateSourceExternalNetwork(networkName: string, ipRanges: seq<IpRange>)
    | DeleteSession
    // NSX-T client
    | GetComputeManagers
    | ClearBridging(orgVDCNetworkList: seq<OrgVDCNetwork>)

  /**
   * The remote systems' behaviour. Each function is applied to the position
   * (counting from 0) in the trace of the call it answers. `raises` says
   * whether that call raises, with the exception's message; the other
   * functions give the value it returns when it does not.
   */
  datatype Oracle = Oracle(
    raises: nat -> Option<string>,
    orgUrl: nat -> string,
    providerVDC: nat -> ProviderVDC,
    orgVDCId: nat -> string,
    edgeGateways: nat -> EdgeGatewayPayload,
    orgVDCNetworks: nat -> seq<OrgVDCNetwork>)

  /** The exceptions that reach the caller of the workflow. */
  datatype Error =
    | RemoteError(message: string)   // raised by a client call
    | IndexError                     // raised by `[0]` on an empty list

  /** Completion or the exception raised, for calls whose value is not used. */
  datatype Outcome = Pass | Fail(error: Error)
  {
    predicate IsFailure() { Fail? }
    function PropagateFailure(): Outcome
      requires Fail?
    {
      this
    }
  }

  /** A returned value or the exception raised. */
  datatype Result<T> = Success(value: T) | Failure(error: Error)
  {
    predicate IsFailure() { Failure? }
    function PropagateFailure(): Outcome
      requires Failure?
    {
      Fail(error)
    }
    function Extract(): T
      requires Success?
    {
      value
    }
  }

  /** How the call at position `p` completes. */
  function Status(oracle: Oracle, p: nat): (r: Outcome)
    ensures r.Pass? <==> oracle.raises(p).None?
    ensures r.Fail? ==> r.error == RemoteError(oracle.raises(p).value)
  {
    match oracle.raises(p)
    case None => Pass
    case Some(message) => Fail(RemoteError(message))
  }

  /** The reply to the call at position `p`, carrying `value` when it does not raise. */
  function Reply<T>(oracle: Oracle, p: nat, value: T): (r: Result<T>)
    ensures r.Success? <==> oracle.raises(p).None?
    ensures r.Success? ==> r.value == value
    ensures r.Failure? ==> r.error == RemoteError(oracle.raises(p).value)
  {
    match oracle.raises(p)
    case None => Success(value)
    case Some(message) => Failure(RemoteError(message))
  }

  /** The remote systems together with the trace of every call made on them. */
  class Remote {
    const oracle: Oracle
    var trace: seq<Call>

    constructor (oracle: Oracle, history: seq<Call>)
      ensures this.oracle == oracle && trace == history
    {
      this.oracle := oracle;
      trace := history;
    }

    /** Records `c` and reports whether it raised. */
    method Perform(c: Call) returns (r: Outcome)
      modifies this
      ensures trace == old(trace) + [c]
      ensures r == Status(oracle, |old(trace)|)
    {
      r := Status(oracle, |trace|);
      trace := trace + [c];
    }
  }

  /** The VMware Cloud Director client: one method per operation the workflow calls. */
  class VCloudDirectorOperations {
    const remote: Remote

    constructor (remote: Remote)
      ensures this.remote == remote
    {
      this.remote := remote;
    }

    method VcdLogin() returns (r: Outcome)
      modifies remote
      ensures remote.trace == old(remote.trace) + [Call.VcdLogin]
      ensures r == Status(remote.oracle, |old(remote.trace)|)
    {
      r := remote.Perform(Call.VcdLogin);
    }

    method GetOrgUrl(orgName: string) returns (r: Result<string>)
      modifies remote
      ensures remote.trace == old(remote.trace) + [Call.GetOrgUrl(orgName)]
      ensures r == Reply(remote.oracle, |old(remote.trace)|, remote.oracle.orgUrl(|old(remote.trace)|))
    {
      var p := |remote.trace|;
      var s := remote.Perform(Call.GetOrgUrl(orgName));
      r := Reply(remote.oracle, p, remote.oracle.orgUrl(p));
    }

    method GetProviderVDCId(providerVDCName: string) returns (r: Result<ProviderVDC>)
      modifies remote
      ensures remote.trace == old(remote.trace) + [Call.GetProviderVDCId(providerVDCName)]
      ensures r == Reply(remote.oracle, |old(remote.trace)|, remote.oracle.providerVDC(|old(remote.trace)|))
    {
      var p := |remote.trace|;
      var s := remote.Perform(Call.GetProviderVDCId(providerVDCName));
      r := Reply(remote.oracle, p, remote.oracle.providerVDC(p));
    }

    method GetOrgVDCDetails(orgUrl: string, orgVDCName: string, orgVDCType: string, saveResponse: bool)
      returns (r: Result<string>)
      modifies remote
      ensures remote.trace == old(remote.trace) + [Call.GetOrgVDCDetails(orgUrl, orgVDCName, orgVDCType, saveResponse)]
      ensures r == Reply(remote.oracle, |old(remote.trace)|, remote.oracle.orgVDCId(|old(remote.trace)|))
    {
      var p := |remote.trace|;
      var s := remote.Perform(Call.GetOrgVDCDetails(orgUrl, orgVDCName, orgVDCType, saveResponse));
      r := Reply(remote.oracle, p, remote.oracle.orgVDCId(p));
    }

    method ValidateOrgVDCNSXbacking(orgVDCId: string, providerVDCId: string, isNSXTbacked: bool)
      returns (r: Outcome)
      modifies remote
      ensures remote.trace == old(remote.trace) + [Call.ValidateOrgVDCNSXbacking(orgVDCId, providerVDCId, isNSXTbacked)]
      ensures r == Status(remote.oracle, |old(remote.trace)|)
    {
      r := remote.Perform(Call.ValidateOrgVDCNSXbacking(orgVDCId, providerVDCId, isNSXTbacked));
    }

    method GetOrgVDCEdgeGateway(orgVDCId: string) returns (r: Result<EdgeGatewayPayload>)
      modifies remote
      ensures remote.trace == old(remote.trace) + [Call.GetOrgVDCEdgeGateway(orgVDCId)]
      ensures r == Reply(remote.oracle, |old(remote.trace)|, remote.oracle.edgeGateways(|old(remote.trace)|))
    {
      var p := |remote.trace|;
      var s := remote.Perform(Call.GetOrgVDCEdgeGateway(orgVDCId));
      r := Reply(remote.oracle, p, remote.oracle.edgeGateways(p));
    }

    method ValidateTargetOrgVDCState(orgVDCId: string) returns (r: Outcome)
      modifies remote
      ensures remote.trace == old(remote.trace) + [Call.ValidateTargetOrgVDCState(orgVDCId)]
      ensures r == Status(remote.oracle, |old(remote.trace)|)
    {
      r := remote.Perform(Call.ValidateTargetOrgVDCState(orgVDCId));
    }

    method GetOrgVDCNetworks(orgVDCId: string, orgVDCNetworkType: string, saveResponse: bool)
      returns (r: Result<seq<OrgVDCNetwork>>)
      modifies remote
      ensures remote.trace == old(remote.trace) + [Call.GetOrgVDCNetworks(orgVDCId, orgVDCNetworkType, saveResponse)]
      ensures r == Reply(remote.oracle, |old(remote.trace)|, remote.oracle.orgVDCNetworks(|old(remote.trace)|))
    {
      var p := |remote.trace|;
      var s := remote.Perform(Call.GetOrgVDCNetworks(orgVDCId, orgVDCNetworkType, saveResponse));
      r := Reply(remote.oracle, p, remote.oracle.orgVDCNetworks(p));
    }

    method ValidateVappVMsMediaState(orgVDCId: string, raiseError: bool) returns (r: Outcome)
      modifies remote
      ensures remote.trace == old(remote.trace) + [Call.ValidateVappVMsMediaState(orgVDCId, raiseError)]
      ensures r == Status(remote.oracle, |old(remote.trace)|)
    {
      r := remote.Perform(Call.ValidateVappVMsMediaState(orgVDCId, raiseError));
    }

    method MigrateCatalogItems(sourceOrgVDCId: string, targetOrgVDCId: string, orgUrl: string) returns (r: Outcome)
      modifies remote
      ensures remote.trace == old(remote.trace) + [Call.MigrateCatalogItems(sourceOrgVDCId, targetOrgVDCId, orgUrl)]
      ensures r == Status(remote.oracle, |old(remote.trace)|)
    {
      r := remote.Perform(Call.MigrateCatalogItems(sourceOrgVDCId, targetOrgVDCId, orgUrl));
    }

    method DeleteOrgVDCNetworks(orgVDCId: string) returns (r: Outcome)
      modifies remote
      ensures remote.trace == old(remote.trace) + [Call.DeleteOrgVDCNetworks(orgVDCId)]
      ensures r == Status(remote.oracle, |old(remote.trace)|)
    {
      r := remote.Perform(Call.DeleteOrgVDCNetworks(orgVDCId));
    }

    method DeleteNsxVBackedOrgVDCEdgeGateways(orgVDCId: string) returns (r: Outcome)
      modifies remote
      ensures remote.trace == old(remote.trace) + [Call.DeleteNsxVBackedOrgVDCEdgeGateways(orgVDCId)]
      ensures r == Status(remote.oracle, |old(remote.trace)|)
    {
      r := remote.Perform(Call.DeleteNsxVBackedOrgVDCEdgeGateways(orgVDCId));
    }

    method DeleteOrgVDC(orgVDCId: string) returns (r: Outcome)
      modifies remote
      ensures remote.trace == old(remote.trace) + [Call.DeleteOrgVDC(orgVDCId)]
      ensures r == Status(remote.oracle, |old(remote.trace)|)
    {
      r := remote.Perform(Call.DeleteOrgVDC(orgVDCId));
    }

    method RenameTargetOrgVDCNetworks(orgVDCId: string) returns (r: Outcome)
      modifies remote
      ensures remote.trace == old(remote.trace) + [Call.RenameTargetOrgVDCNetworks(orgVDCId)]
      ensures r == Status(remote.oracle, |old(remote.trace)|)
    {
      r := remote.Perform(Call.RenameTargetOrgVDCNetworks(orgVDCId));
    }

    method RenameOrgVDC(sourceOrgVDCName: string, targetOrgVDCId: string) returns (r: Outcome)
      modifies remote
      ensures remote.trace == old(remote.trace) + [Call.RenameOrgVDC(sourceOrgVDCName, targetOrgVDCId)]
      ensures r == Status(remote.oracle, |old(remote.trace)|)
    {
      r := remote.Perform(Call.RenameOrgVDC(sourceOrgVDCName, targetOrgVDCId));
    }

    method UpdateSourceExternalNetwork(networkName: string, ipRanges: seq<IpRange>) returns (r: Outcome)
      modifies remote
      ensures remote.trace == old(remote.trace) + [Call.UpdateSourceExternalNetwork(networkName, ipRanges)]
      ensures r == Status(remote.oracle, |old(remote.trace)|)
    {
      r := remote.Perform(Call.UpdateSourceExternalNetwork(networkName, ipRanges));
    }

    method DeleteSession() returns (r: Outcome)
      modifies remote
      ensures remote.trace == old(remote.trace) + [Call.DeleteSession]
      ensures r == Status(remote.oracle, |old(remote.trace)|)
    {
      r := remote.Perform(Call.DeleteSession);
    }
  }

  /** The NSX-T client: the two operations the workflow calls. */
  class NSXTOperations {
    const remote: Remote

    constructor (remote: Remote)
      ensures this.remote == remote
    {
      this.remote := remote;
    }

    method GetComputeManagers() returns (r: Outcome)
      modifies remote
      ensures remote.trace == old(remote.trace) + [Call.GetComputeManagers]
      ensures r == Status(remote.oracle, |old(remote.trace)|)
    {
      r := remote.Perform(Call.GetComputeManagers);
    }

    method ClearBridging(orgVDCNetworkList: seq<OrgVDCNetwork>) returns (r: Outcome)
      modifies remote
      ensures remote.trace == old(remote.trace) + [Call.ClearBridging(orgVDCNetworkList)]
      ensures r == Status(remote.oracle, |old(remote.trace)|)
    {
      r := remote.Perform(Call.ClearBridging(orgVDCNetworkList));
    }
  }
}
