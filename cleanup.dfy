/**
 * The cleanup phase of the NSX-V to NSX-T migration: a fixed, fail-fast
 * sequence of remote calls that validates the source and target org VDCs,
 * moves the catalog, tears the source side down, promotes the target side to
 * the source's name and hands the deleted gateway's IP ranges back to the
 * external network.
 *
 * `NextStep` is the step table: given the calls made so far, it says which
 * call comes next and with which arguments (taken from the replies of the
 * earlier calls). `Exec` is the driver that runs the table until it finishes
 * or a call raises. The method `Run` is the workflow as the source writes it,
 * one call after the other (cut into seven phase methods, each verified on
 * its own), and is proved to make exactly the calls `Exec` makes and to end
 * the same way.
 */
module Cleanup {
  import opened EdgeGateways
  import opened RemoteClients

  /** The settings the workflow reads from its configuration dictionary. */
  datatype Config = Config(
    orgName: string,                       // Organization.OrgName
    sourceOrgVDCName: string,              // SourceOrgVDC.OrgVDCName
    sourceExternalNetworkName: string,     // NSXVProviderVDC.ExternalNetwork
    sourceProviderVDCName: string,         // NSXVProviderVDC.ProviderVDCName
    targetProviderVDCName: string)         // NSXTProviderVDC.ProviderVDCName

  /** The name under which the migration created the target org VDC. */
  function TargetOrgVDCName(sourceOrgVDCName: string): (r: string)
    ensures |r| == |sourceOrgVDCName| + 2
    ensures r[..|sourceOrgVDCName|] == sourceOrgVDCName && r[|sourceOrgVDCName|..] == "-t"
  {
    sourceOrgVDCName + "-t"
  }

  /** The calls made, and how the workflow ended. */
  datatype Execution = Execution(calls: seq<Call>, outcome: Outcome)

  /** What the step table prescribes next. */
  datatype Next = Make(call: Call) | Finish | Abort(error: Error)

  /**
   * The step table: what the workflow does after its first `n` calls have
   * returned, when it started at position `base` of the trace. The locals of
   * the source are the replies of the calls they were assigned from, found at
   * their positions `base + k`. The table is split along the source's phases.
   */
  function NextStep(cfg: Config, o: Oracle, base: nat, n: nat): (r: Next)
    ensures n < 20 ==> r.Make?
    ensures r.Abort? ==> n == 20 && r.error == IndexError
    ensures n > 21 ==> r.Finish?
  {
    if n < 7 then SourceStep(cfg, o, base, n)
    else if n < 13 then TargetStep(cfg, o, base, n)
    else if n < 20 then TeardownStep(cfg, o, base, n)
    else FinalStep(cfg, o, base, n)
  }

  /** Logging in, and looking up and checking the source side (steps 0 to 6). */
  function SourceStep(cfg: Config, o: Oracle, base: nat, n: nat): (r: Next)
    ensures r.Make?
  {
    if n == 0 then Make(Call.VcdLogin)
    else if n == 1 then Make(Call.GetComputeManagers)
    else if n == 2 then Make(Call.GetOrgUrl(cfg.orgName))
    else if n == 3 then Make(Call.GetProviderVDCId(cfg.sourceProviderVDCName))
    else if n == 4 then Make(Call.GetOrgVDCDetails(o.orgUrl(base + 2), cfg.sourceOrgVDCName, "sourceOrgVDC", false))
    else if n == 5 then
      Make(Call.ValidateOrgVDCNSXbacking(o.orgVDCId(base + 4), o.providerVDC(base + 3).id, o.providerVDC(base + 3).isNSXTbacked))
    else Make(Call.GetOrgVDCEdgeGateway(o.orgVDCId(base + 4)))
  }

  /** Looking up and checking the target side (steps 7 to 12). */
  function TargetStep(cfg: Config, o: Oracle, base: nat, n: nat): (r: Next)
    ensures r.Make?
  {
    if n == 7 then Make(Call.GetProviderVDCId(cfg.targetProviderVDCName))
    else if n == 8 then
      Make(Call.GetOrgVDCDetails(o.orgUrl(base + 2), TargetOrgVDCName(cfg.sourceOrgVDCName), "targetOrgVDC", false))
    else if n == 9 then
      Make(Call.ValidateOrgVDCNSXbacking(o.orgVDCId(base + 8), o.providerVDC(base + 7).id, o.providerVDC(base + 7).isNSXTbacked))
    else if n == 10 then Make(Call.ValidateTargetOrgVDCState(o.orgVDCId(base + 8)))
    else if n == 11 then Make(Call.GetOrgVDCNetworks(o.orgVDCId(base + 8), "targetOrgVDCNetworks", false))
    else Make(Call.ValidateVappVMsMediaState(o.orgVDCId(base + 8), true))
  }

  /** Moving the catalog, tearing the source down and promoting the target (steps 13 to 19). */
  function TeardownStep(cfg: Config, o: Oracle, base: nat, n: nat): (r: Next)
    ensures r.Make?
  {
    if n == 13 then Make(Call.MigrateCatalogItems(o.orgVDCId(base + 4), o.orgVDCId(base + 8), o.orgUrl(base + 2)))
    else if n == 14 then Make(Call.ClearBridging(o.orgVDCNetworks(base + 11)))
    else if n == 15 then Make(Call.DeleteOrgVDCNetworks(o.orgVDCId(base + 4)))
    else if n == 16 then Make(Call.DeleteNsxVBackedOrgVDCEdgeGateways(o.orgVDCId(base + 4)))
    else if n == 17 then Make(Call.DeleteOrgVDC(o.orgVDCId(base + 4)))
    else if n == 18 then Make(Call.RenameTargetOrgVDCNetworks(o.orgVDCId(base + 8)))
    else Make(Call.RenameOrgVDC(cfg.sourceOrgVDCName, o.orgVDCId(base + 8)))
  }

  /**
   * Handing the gateway's IP ranges back to the external network, then
   * logging out (steps 20 and 21); the decision reads the gateway payload
   * fetched at step 6.
   */
  function FinalStep(cfg: Config, o: Oracle, base: nat, n: nat): (r: Next)
    ensures r.Abort? ==> n == 20 && r.error == IndexError
    ensures r.Make? ==> n == 20 || n == 21
  {
    var decision := IpPoolUpdate(o.edgeGateways(base + 6), cfg.sourceExternalNetworkName);
    if n == 20 then
      match decision
      case IndexOutOfRange => Abort(IndexError)
      case Skip => Make(Call.DeleteSession)
      case Update(ipRanges) => Make(Call.UpdateSourceExternalNetwork(cfg.sourceExternalNetworkName, ipRanges))
    else if n == 21 && decision.Update? then Make(Call.DeleteSession)
    else Finish
  }

  /**
   * The driver: after the calls `done` have returned, makes the calls the
   * table prescribes in turn and stops at the first one that raises.
   */
  function Exec(cfg: Config, o: Oracle, base: nat, done: seq<Call>): (r: Execution)
    ensures |done| <= |r.calls| && r.calls[..|done|] == done
    ensures |done| <= 22 ==> |r.calls| <= 22
    decreases 22 - |done|
  {
    if |done| >= 22 then Execution(done, Pass)
    else
      match NextStep(cfg, o, base, |done|)
      case Finish => Execution(done, Pass)
      case Abort(e) => Execution(done, Fail(e))
      case Make(c) =>
        if Status(o, base + |done|).Fail? then Execution(done + [c], Status(o, base + |done|))
        else Exec(cfg, o, base, done + [c])
  }

  /** A whole run, started at position `base` of the trace. */
  function Workflow(cfg: Config, o: Oracle, base: nat): (r: Execution)
    ensures |r.calls| <= 22
  {
    Exec(cfg, o, base, [])
  }

  /**
   * One step of the driver when the table prescribes `c`: if `c` raises the
   * run ends with it, otherwise it goes on with `c` added to the calls made.
   */
  lemma Advance(cfg: Config, o: Oracle, base: nat, done: seq<Call>, c: Call)
    requires |done| < 22 && NextStep(cfg, o, base, |done|) == Make(c)
    ensures Status(o, base + |done|).Fail? ==>
              Exec(cfg, o, base, done) == Execution(done + [c], Status(o, base + |done|))
    ensures Status(o, base + |done|).Pass? ==> Exec(cfg, o, base, done) == Exec(cfg, o, base, done + [c])
  {
  }

  /** Appending a call to a trace that ends with `done`. */
  lemma TraceExtends(h: seq<Call>, done: seq<Call>, c: Call)
    ensures (h + done) + [c] == h + (done + [c])
  {
  }

  /** The driver stops where the table says so. */
  lemma Halt(cfg: Config, o: Oracle, base: nat, done: seq<Call>)
    requires |done| >= 22 || NextStep(cfg, o, base, |done|).Finish? || NextStep(cfg, o, base, |done|).Abort?
    ensures Exec(cfg, o, base, done) ==
              if |done| < 22 && NextStep(cfg, o, base, |done|).Abort? then Execution(done, Fail(NextStep(cfg, o, base, |done|).error))
              else Execution(done, Pass)
  {
  }

  /** The cleanup workflow, holding its configuration. */
  class VMwareCloudDirectorNSXMigratorCleanup {
    const config: Config

    constructor (config: Config)
      ensures this.config == config
    {
      this.config := config;
    }

    /** Logging in to VMware Cloud Director and to NSX-T (steps 0 and 1). */
    method LogIn(remote: Remote, vcdObj: VCloudDirectorOperations, nsxtObj: NSXTOperations, ghost h0: seq<Call>, ghost done: seq<Call>)
      returns (outcome: Outcome, ghost after: seq<Call>)
      requires vcdObj.remote == remote && nsxtObj.remote == remote
      requires remote.trace == h0 + done && |done| == 0
      requires Workflow(config, remote.oracle, |h0|) == Exec(config, remote.oracle, |h0|, done)
      modifies remote
      ensures outcome.Fail? ==>
                remote.trace == h0 + Workflow(config, remote.oracle, |h0|).calls && outcome == Workflow(config, remote.oracle, |h0|).outcome
      ensures outcome.Pass? ==>
                remote.trace == h0 + after && |after| == 2
                && Workflow(config, remote.oracle, |h0|) == Exec(config, remote.oracle, |h0|, after)
    {
      ghost var o, base := remote.oracle, |h0|;
      after := done;
      // The steps of the table, stated on the replies before any call is made.
      ghost var d0 := done;
      Advance(config, o, base, d0, Call.VcdLogin);
      TraceExtends(h0, d0, Call.VcdLogin);
      ghost var d1 := d0 + [Call.VcdLogin];
      Advance(config, o, base, d1, Call.GetComputeManagers);
      TraceExtends(h0, d1, Call.GetComputeManagers);
      ghost var d2 := d1 + [Call.GetComputeManagers];
      // The calls, as the source makes them.
      :- vcdObj.VcdLogin();
      :- nsxtObj.GetComputeManagers();
      outcome, after := Pass, d2;
    }

    /** Looking up and checking the source side (steps 2 to 6). */
    method ValidateSource(remote: Remote, vcdObj: VCloudDirectorOperations, ghost h0: seq<Call>, ghost done: seq<Call>)
      returns (outcome: Outcome, orgUrl: string, sourceOrgVDCId: string, edgeGatewayDetails: EdgeGatewayPayload, ghost after: seq<Call>)
      requires vcdObj.remote == remote
      requires remote.trace == h0 + done && |done| == 2
      requires Workflow(config, remote.oracle, |h0|) == Exec(config, remote.oracle, |h0|, done)
      modifies remote
      ensures outcome.Fail? ==>
                remote.trace == h0 + Workflow(config, remote.oracle, |h0|).calls && outcome == Workflow(config, remote.oracle, |h0|).outcome
      ensures outcome.Pass? ==>
                remote.trace == h0 + after && |after| == 7
                && Workflow(config, remote.oracle, |h0|) == Exec(config, remote.oracle, |h0|, after)
                && orgUrl == remote.oracle.orgUrl(|h0| + 2) && sourceOrgVDCId == remote.oracle.orgVDCId(|h0| + 4)
                && edgeGatewayDetails == remote.oracle.edgeGateways(|h0| + 6)
    {
      ghost var o, base := remote.oracle, |h0|;
      // Placeholders, read by no caller when a call raises.
      orgUrl, sourceOrgVDCId, edgeGatewayDetails := "", "", EdgeGatewayPayload([]);
      after := done;
      // The steps of the table, stated on the replies before any call is made.
      ghost var d2 := done;
      Advance(config, o, base, d2, Call.GetOrgUrl(config.orgName));
      TraceExtends(h0, d2, Call.GetOrgUrl(config.orgName));
      ghost var d3 := d2 + [Call.GetOrgUrl(config.orgName)];
      Advance(config, o, base, d3, Call.GetProviderVDCId(config.sourceProviderVDCName));
      TraceExtends(h0, d3, Call.GetProviderVDCId(config.sourceProviderVDCName));
      ghost var d4 := d3 + [Call.GetProviderVDCId(config.sourceProviderVDCName)];
      Advance(config, o, base, d4, Call.GetOrgVDCDetails(o.orgUrl(base + 2), config.sourceOrgVDCName, "sourceOrgVDC", false));
      TraceExtends(h0, d4, Call.GetOrgVDCDetails(o.orgUrl(base + 2), config.sourceOrgVDCName, "sourceOrgVDC", false));
      ghost var d5 := d4 + [Call.GetOrgVDCDetails(o.orgUrl(base + 2), config.sourceOrgVDCName, "sourceOrgVDC", false)];
      Advance(config, o, base, d5, Call.ValidateOrgVDCNSXbacking(o.orgVDCId(base + 4), o.providerVDC(base + 3).id, o.providerVDC(base + 3).isNSXTbacked));
      TraceExtends(h0, d5, Call.ValidateOrgVDCNSXbacking(o.orgVDCId(base + 4), o.providerVDC(base + 3).id, o.providerVDC(base + 3).isNSXTbacked));
      ghost var d6 := d5 + [Call.ValidateOrgVDCNSXbacking(o.orgVDCId(base + 4), o.providerVDC(base + 3).id, o.providerVDC(base + 3).isNSXTbacked)];
      Advance(config, o, base, d6, Call.GetOrgVDCEdgeGateway(o.orgVDCId(base + 4)));
      TraceExtends(h0, d6, Call.GetOrgVDCEdgeGateway(o.orgVDCId(base + 4)));
      ghost var d7 := d6 + [Call.GetOrgVDCEdgeGateway(o.orgVDCId(base + 4))];
      // The calls, as the source makes them.
      orgUrl :- vcdObj.GetOrgUrl(config.orgName);
      var sourceProviderVDC :- vcdObj.GetProviderVDCId(config.sourceProviderVDCName);
      sourceOrgVDCId :- vcdObj.GetOrgVDCDetails(orgUrl, config.sourceOrgVDCName, "sourceOrgVDC", false);
      :- vcdObj.ValidateOrgVDCNSXbacking(sourceOrgVDCId, sourceProviderVDC.id, sourceProviderVDC.isNSXTbacked);
      edgeGatewayDetails :- vcdObj.GetOrgVDCEdgeGateway(sourceOrgVDCId);
      outcome, after := Pass, d7;
    }

    /** Looking up the target side and checking its backing (steps 7 to 9). */
    method LookUpTarget(remote: Remote, vcdObj: VCloudDirectorOperations, orgUrl: string, ghost h0: seq<Call>, ghost done: seq<Call>)
      returns (outcome: Outcome, targetOrgVDCId: string, ghost after: seq<Call>)
      requires vcdObj.remote == remote
      requires remote.trace == h0 + done && |done| == 7
      requires Workflow(config, remote.oracle, |h0|) == Exec(config, remote.oracle, |h0|, done)
      requires orgUrl == remote.oracle.orgUrl(|h0| + 2)
      modifies remote
      ensures outcome.Fail? ==>
                remote.trace == h0 + Workflow(config, remote.oracle, |h0|).calls && outcome == Workflow(config, remote.oracle, |h0|).outcome
      ensures outcome.Pass? ==>
                remote.trace == h0 + after && |after| == 10
                && Workflow(config, remote.oracle, |h0|) == Exec(config, remote.oracle, |h0|, after)
                && targetOrgVDCId == remote.oracle.orgVDCId(|h0| + 8)
    {
      ghost var o, base := remote.oracle, |h0|;
      // Placeholder, read by no caller when a call raises.
      targetOrgVDCId := "";
      after := done;
      // The steps of the table, stated on the replies before any call is made.
      ghost var d7 := done;
      Advance(config, o, base, d7, Call.GetProviderVDCId(config.targetProviderVDCName));
      TraceExtends(h0, d7, Call.GetProviderVDCId(config.targetProviderVDCName));
      ghost var d8 := d7 + [Call.GetProviderVDCId(config.targetProviderVDCName)];
      Advance(config, o, base, d8, Call.GetOrgVDCDetails(o.orgUrl(base + 2), TargetOrgVDCName(config.sourceOrgVDCName), "targetOrgVDC", false));
      TraceExtends(h0, d8, Call.GetOrgVDCDetails(o.orgUrl(base + 2), TargetOrgVDCName(config.sourceOrgVDCName), "targetOrgVDC", false));
      ghost var d9 := d8 + [Call.GetOrgVDCDetails(o.orgUrl(base + 2), TargetOrgVDCName(config.sourceOrgVDCName), "targetOrgVDC", false)];
      Advance(config, o, base, d9, Call.ValidateOrgVDCNSXbacking(o.orgVDCId(base + 8), o.providerVDC(base + 7).id, o.providerVDC(base + 7).isNSXTbacked));
      TraceExtends(h0, d9, Call.ValidateOrgVDCNSXbacking(o.orgVDCId(base + 8), o.providerVDC(base + 7).id, o.providerVDC(base + 7).isNSXTbacked));
      ghost var d10 := d9 + [Call.ValidateOrgVDCNSXbacking(o.orgVDCId(base + 8), o.providerVDC(base + 7).id, o.providerVDC(base + 7).isNSXTbacked)];
      // The calls, as the source makes them.
      var targetProviderVDC :- vcdObj.GetProviderVDCId(config.targetProviderVDCName);
      targetOrgVDCId :- vcdObj.GetOrgVDCDetails(orgUrl, TargetOrgVDCName(config.sourceOrgVDCName), "targetOrgVDC", false);
      :- vcdObj.ValidateOrgVDCNSXbacking(targetOrgVDCId, targetProviderVDC.id, targetProviderVDC.isNSXTbacked);
      outcome, after := Pass, d10;
    }

    /** Checking the target's state, listing its networks and checking its media (steps 10 to 12). */
    method ValidateTarget(remote: Remote, vcdObj: VCloudDirectorOperations, targetOrgVDCId: string, ghost h0: seq<Call>, ghost done: seq<Call>)
      returns (outcome: Outcome, orgVDCNetworkList: seq<OrgVDCNetwork>, ghost after: seq<Call>)
      requires vcdObj.remote == remote
      requires remote.trace == h0 + done && |done| == 10
      requires Workflow(config, remote.oracle, |h0|) == Exec(config, remote.oracle, |h0|, done)
      requires targetOrgVDCId == remote.oracle.orgVDCId(|h0| + 8)
      modifies remote
      ensures outcome.Fail? ==>
                remote.trace == h0 + Workflow(config, remote.oracle, |h0|).calls && outcome == Workflow(config, remote.oracle, |h0|).outcome
      ensures outcome.Pass? ==>
                remote.trace == h0 + after && |after| == 13
                && Workflow(config, remote.oracle, |h0|) == Exec(config, remote.oracle, |h0|, after)
                && orgVDCNetworkList == remote.oracle.orgVDCNetworks(|h0| + 11)
    {
      ghost var o, base := remote.oracle, |h0|;
      // Placeholder, read by no caller when a call raises.
      orgVDCNetworkList := [];
      after := done;
      // The steps of the table, stated on the replies before any call is made.
      ghost var d10 := done;
      Advance(config, o, base, d10, Call.ValidateTargetOrgVDCState(o.orgVDCId(base + 8)));
      TraceExtends(h0, d10, Call.ValidateTargetOrgVDCState(o.orgVDCId(base + 8)));
      ghost var d11 := d10 + [Call.ValidateTargetOrgVDCState(o.orgVDCId(base + 8))];
      Advance(config, o, base, d11, Call.GetOrgVDCNetworks(o.orgVDCId(base + 8), "targetOrgVDCNetworks", false));
      TraceExtends(h0, d11, Call.GetOrgVDCNetworks(o.orgVDCId(base + 8), "targetOrgVDCNetworks", false));
      ghost var d12 := d11 + [Call.GetOrgVDCNetworks(o.orgVDCId(base + 8), "targetOrgVDCNetworks", false)];
      Advance(config, o, base, d12, Call.ValidateVappVMsMediaState(o.orgVDCId(base + 8), true));
      TraceExtends(h0, d12, Call.ValidateVappVMsMediaState(o.orgVDCId(base + 8), true));
      ghost var d13 := d12 + [Call.ValidateVappVMsMediaState(o.orgVDCId(base + 8), true)];
      // The calls, as the source makes them.
      :- vcdObj.ValidateTargetOrgVDCState(targetOrgVDCId);
      orgVDCNetworkList :- vcdObj.GetOrgVDCNetworks(targetOrgVDCId, "targetOrgVDCNetworks", false);
      :- vcdObj.ValidateVappVMsMediaState(targetOrgVDCId, true);
      outcome, after := Pass, d13;
    }

    /** Moving the catalog and tearing the source side down (steps 13 to 17). */
    method Teardown(remote: Remote, vcdObj: VCloudDirectorOperations, nsxtObj: NSXTOperations, orgUrl: string, sourceOrgVDCId: string, targetOrgVDCId: string, orgVDCNetworkList: seq<OrgVDCNetwork>, ghost h0: seq<Call>, ghost done: seq<Call>)
      returns (outcome: Outcome, ghost after: seq<Call>)
      requires vcdObj.remote == remote && nsxtObj.remote == remote
      requires remote.trace == h0 + done && |done| == 13
      requires Workflow(config, remote.oracle, |h0|) == Exec(config, remote.oracle, |h0|, done)
      requires orgUrl == remote.oracle.orgUrl(|h0| + 2) && sourceOrgVDCId == remote.oracle.orgVDCId(|h0| + 4)
      requires targetOrgVDCId == remote.oracle.orgVDCId(|h0| + 8) && orgVDCNetworkList == remote.oracle.orgVDCNetworks(|h0| + 11)
      modifies remote
      ensures outcome.Fail? ==>
                remote.trace == h0 + Workflow(config, remote.oracle, |h0|).calls && outcome == Workflow(config, remote.oracle, |h0|).outcome
      ensures outcome.Pass? ==>
                remote.trace == h0 + after && |after| == 18
                && Workflow(config, remote.oracle, |h0|) == Exec(config, remote.oracle, |h0|, after)
    {
      ghost var o, base := remote.oracle, |h0|;
      after := done;
      // The steps of the table, stated on the replies before any call is made.
      ghost var d13 := done;
      Advance(config, o, base, d13, Call.MigrateCatalogItems(o.orgVDCId(base + 4), o.orgVDCId(base + 8), o.orgUrl(base + 2)));
      TraceExtends(h0, d13, Call.MigrateCatalogItems(o.orgVDCId(base + 4), o.orgVDCId(base + 8), o.orgUrl(base + 2)));
      ghost var d14 := d13 + [Call.MigrateCatalogItems(o.orgVDCId(base + 4), o.orgVDCId(base + 8), o.orgUrl(base + 2))];
      Advance(config, o, base, d14, Call.ClearBridging(o.orgVDCNetworks(base + 11)));
      TraceExtends(h0, d14, Call.ClearBridging(o.orgVDCNetworks(base + 11)));
      ghost var d15 := d14 + [Call.ClearBridging(o.orgVDCNetworks(base + 11))];
      Advance(config, o, base, d15, Call.DeleteOrgVDCNetworks(o.orgVDCId(base + 4)));
      TraceExtends(h0, d15, Call.DeleteOrgVDCNetworks(o.orgVDCId(base + 4)));
      ghost var d16 := d15 + [Call.DeleteOrgVDCNetworks(o.orgVDCId(base + 4))];
      Advance(config, o, base, d16, Call.DeleteNsxVBackedOrgVDCEdgeGateways(o.orgVDCId(base + 4)));
      TraceExtends(h0, d16, Call.DeleteNsxVBackedOrgVDCEdgeGateways(o.orgVDCId(base + 4)));
      ghost var d17 := d16 + [Call.DeleteNsxVBackedOrgVDCEdgeGateways(o.orgVDCId(base + 4))];
      Advance(config, o, base, d17, Call.DeleteOrgVDC(o.orgVDCId(base + 4)));
      TraceExtends(h0, d17, Call.DeleteOrgVDC(o.orgVDCId(base + 4)));
      ghost var d18 := d17 + [Call.DeleteOrgVDC(o.orgVDCId(base + 4))];
      // The calls, as the source makes them.
      :- vcdObj.MigrateCatalogItems(sourceOrgVDCId, targetOrgVDCId, orgUrl);
      :- nsxtObj.ClearBridging(orgVDCNetworkList);
      :- vcdObj.DeleteOrgVDCNetworks(sourceOrgVDCId);
      :- vcdObj.DeleteNsxVBackedOrgVDCEdgeGateways(sourceOrgVDCId);
      :- vcdObj.DeleteOrgVDC(sourceOrgVDCId);
      outcome, after := Pass, d18;
    }

    /** Giving the target side the source's names (steps 18 and 19). */
    method PromoteTarget(remote: Remote, vcdObj: VCloudDirectorOperations, targetOrgVDCId: string, ghost h0: seq<Call>, ghost done: seq<Call>)
      returns (outcome: Outcome, ghost after: seq<Call>)
      requires vcdObj.remote == remote
      requires remote.trace == h0 + done && |done| == 18
      requires Workflow(config, remote.oracle, |h0|) == Exec(config, remote.oracle, |h0|, done)
      requires targetOrgVDCId == remote.oracle.orgVDCId(|h0| + 8)
      modifies remote
      ensures outcome.Fail? ==>
                remote.trace == h0 + Workflow(config, remote.oracle, |h0|).calls && outcome == Workflow(config, remote.oracle, |h0|).outcome
      ensures outcome.Pass? ==>
                remote.trace == h0 + after && |after| == 20
                && Workflow(config, remote.oracle, |h0|) == Exec(config, remote.oracle, |h0|, after)
    {
      ghost var o, base := remote.oracle, |h0|;
      after := done;
      // The steps of the table, stated on the replies before any call is made.
      ghost var d18 := done;
      Advance(config, o, base, d18, Call.RenameTargetOrgVDCNetworks(o.orgVDCId(base + 8)));
      TraceExtends(h0, d18, Call.RenameTargetOrgVDCNetworks(o.orgVDCId(base + 8)));
      ghost var d19 := d18 + [Call.RenameTargetOrgVDCNetworks(o.orgVDCId(base + 8))];
      Advance(config, o, base, d19, Call.RenameOrgVDC(config.sourceOrgVDCName, o.orgVDCId(base + 8)));
      TraceExtends(h0, d19, Call.RenameOrgVDC(config.sourceOrgVDCName, o.orgVDCId(base + 8)));
      ghost var d20 := d19 + [Call.RenameOrgVDC(config.sourceOrgVDCName, o.orgVDCId(base + 8))];
      // The calls, as the source makes them.
      :- vcdObj.RenameTargetOrgVDCNetworks(targetOrgVDCId);
      :- vcdObj.RenameOrgVDC(config.sourceOrgVDCName, targetOrgVDCId);
      outcome, after := Pass, d20;
    }

    /**
     * Handing the deleted gateway's IP ranges back to the source external
     * network when its uplink had any, then logging out (steps 20 and 21).
     */
    method ReleaseIpRanges(remote: Remote, vcdObj: VCloudDirectorOperations, edgeGatewayDetails: EdgeGatewayPayload,
                           ghost h0: seq<Call>, ghost done: seq<Call>)
      returns (outcome: Outcome)
      requires vcdObj.remote == remote
      requires remote.trace == h0 + done && |done| == 20
      requires Workflow(config, remote.oracle, |h0|) == Exec(config, remote.oracle, |h0|, done)
      requires edgeGatewayDetails == remote.oracle.edgeGateways(|h0| + 6)
      modifies remote
      ensures remote.trace == h0 + Workflow(config, remote.oracle, |h0|).calls
      ensures outcome == Workflow(config, remote.oracle, |h0|).outcome
    {
      ghost var o, base := remote.oracle, |h0|;
      var sourceExternalNetworkName := config.sourceExternalNetworkName;
      match IpPoolUpdate(edgeGatewayDetails, sourceExternalNetworkName) {
      case IndexOutOfRange =>
        Halt(config, o, base, done);
        return Fail(IndexError);
      case Skip =>
        Advance(config, o, base, done, Call.DeleteSession);
        TraceExtends(h0, done, Call.DeleteSession);
        :- vcdObj.DeleteSession();
        Halt(config, o, base, done + [Call.DeleteSession]);
      case Update(ipRanges) =>
        ghost var c := Call.UpdateSourceExternalNetwork(sourceExternalNetworkName, ipRanges);
        Advance(config, o, base, done, c);
        TraceExtends(h0, done, c);
        Advance(config, o, base, done + [c], Call.DeleteSession);
        TraceExtends(h0, done + [c], Call.DeleteSession);
        :- vcdObj.UpdateSourceExternalNetwork(sourceExternalNetworkName, ipRanges);
        :- vcdObj.DeleteSession();
        Halt(config, o, base, done + [c] + [Call.DeleteSession]);
      }
      outcome := Pass;
    }

    /**
     * Runs the cleanup against `remote`: appends to its trace exactly the
     * calls of `Workflow` and ends as `Workflow` does. The body is the
     * source's single `try` block, cut into the phases above.
     */
    method Run(remote: Remote) returns (outcome: Outcome)
      modifies remote
      ensures remote.trace == old(remote.trace) + Workflow(config, remote.oracle, |old(remote.trace)|).calls
      ensures outcome == Workflow(config, remote.oracle, |old(remote.trace)|).outcome
    {
      ghost var h0 := remote.trace;
      var vcdObj := new VCloudDirectorOperations(remote);
      var nsxtObj := new NSXTOperations(remote);
      ghost var done: seq<Call> := [];
      outcome, done := LogIn(remote, vcdObj, nsxtObj, h0, done);
      if outcome.Fail? { return; }
      var orgUrl, sourceOrgVDCId, edgeGatewayDetails;
      outcome, orgUrl, sourceOrgVDCId, edgeGatewayDetails, done := ValidateSource(remote, vcdObj, h0, done);
      if outcome.Fail? { return; }
      var targetOrgVDCId;
      outcome, targetOrgVDCId, done := LookUpTarget(remote, vcdObj, orgUrl, h0, done);
      if outcome.Fail? { return; }
      var orgVDCNetworkList;
      outcome, orgVDCNetworkList, done := ValidateTarget(remote, vcdObj, targetOrgVDCId, h0, done);
      if outcome.Fail? { return; }
      outcome, done := Teardown(remote, vcdObj, nsxtObj, orgUrl, sourceOrgVDCId, targetOrgVDCId, orgVDCNetworkList, h0, done);
      if outcome.Fail? { return; }
      outcome, done := PromoteTarget(remote, vcdObj, targetOrgVDCId, h0, done);
      if outcome.Fail? { return; }
      outcome := ReleaseIpRanges(remote, vcdObj, edgeGatewayDetails, h0, done);
    }
  }
}
