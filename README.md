# NSX-V to NSX-T migrator: cleanup workflow

This project models the cleanup workflow of the VMware Cloud Director
NSX-V to NSX-T migrator, `VMwareCloudDirectorNSXMigratorCleanup.run()`,
and proves properties about it. After the migration has built a target
org VDC (named after the source with `-t` appended) on an NSX-T backed
provider VDC, the workflow does the following, in this order:

1. It logs in to VMware Cloud Director and to NSX-T.
2. It looks up the organisation, both provider VDCs, both org VDCs, the source edge-gateway payload and the target's networks.
3. It runs four validation gates:
   - both NSX backing checks;
   - the target org VDC's state;
   - the vApp VMs' media state.
4. It moves the catalog and removes the NSX-T bridging.
5. It deletes the source networks, the source edge gateway and the source org VDC.
6. It renames the target networks and the target org VDC. The target org VDC takes the source's name.
7. It hands the IP ranges of the deleted gateway's uplink back to the source external network's IP pool, when that uplink had any.
8. It logs out.

Every step sits in one `try` block whose handler re-raises. The first call that raises therefore ends the run with that exception, and nothing is undone.

The model has four modules.

- `EdgeGateways` (`edge_gateways.dfy`) holds the pure core.
  - It defines the edge-gateway payload as datatypes.
  - `SourceExternalNetworkUplinks` models the list comprehension that selects the uplinks named after the external network.
  - `IpPoolUpdate` is the decision taken from the payload: skip, update with given ranges, or an `IndexError` from `[0]` on an empty list.
- `RemoteClients` (`remote_clients.dfy`) models the remote interface.
  - The two clients, `VCloudDirectorOperations` and `NSXTOperations`, are classes. They share one `Remote` object that holds the trace of calls made, as a `seq<Call>` field.
  - Each client method appends its call with its arguments to the trace.
  - Whether a call raises, and what it returns, comes from an `Oracle`. The oracle is a set of functions of the call's position in the trace.
  - Within one run, a position fixes the call and everything made before it. So this oracle covers any behaviour of the remote systems that depends on the history of calls.
- `Cleanup` (`cleanup.dfy`) holds the workflow itself.
  - `Config` holds the settings the workflow reads.
  - `NextStep` is the step table. It says which call comes after the first `n` calls and with which arguments. Those arguments are the configured values or the replies of earlier calls.
  - `Exec`/`Workflow` run the table until it finishes or a call raises.
  - The class `VMwareCloudDirectorNSXMigratorCleanup` has the imperative `Run` method. `Run` makes the calls one after the other as the source does, using `:-` for the fail-fast `try`, and is split into seven phase methods.
  - `Run` is proved to append exactly `Workflow(...).calls` to the trace and to end with `Workflow(...).outcome`.
- `CleanupProperties` (`cleanup_properties.dfy`) proves what the source promises about every run. It rests on an independent reference listing, `Plan`, which writes out the calls in source order.
  - The listed calls: every run makes a prefix of them.
  - Fail-fast behaviour.
  - Gates before any mutation.
  - The teardown order and targets.
  - The naming and flag flow.
  - The uplink-selection rule applied to the gateway snapshot.
  - Logging out last.

The source reassigns `isNSXTbacked` at line 86. The model writes this as two locals, `sourceProviderVDC` and `targetProviderVDC`, each holding the id and flag from its own `getProviderVDCId` reply. `BackingChecksUseTheirOwnLookup` proves that each backing check receives the flag from the lookup just before it.

Two points of the code are easy to misread; the model follows the code on both:

- **The logout is not best-effort.** `deleteSession()` (line 149) sits inside the same `try` that re-raises, so its exception ends the run with a failure. `LogoutLast` states this.
- **An empty list is not a skip.** Two cases raise `IndexError`:
  - `values[0]` on an empty gateway list (line 137);
  - `subnets.values[0]` on a first matching uplink without subnets (line 139).

  Both happen after every mutation and before the logout. `IpPoolUpdateCases` and `UplinkSelectionInRun` state this.

## Model

| member | source | states |
|---|---|---|
| EdgeGateways.SourceExternalNetworkUplinks | src/vcdNSXMigratorCleanup.py:137 | The result keeps only uplinks named after the external network, keeps every such uplink, adds none that was not in the list, and is no longer than the list. |
| EdgeGateways.IpPoolUpdate | src/vcdNSXMigratorCleanup.py:137-144 | When the decision is an update, its list of ranges is not empty. |
| EdgeGateways.FilterHead | src/vcdNSXMigratorCleanup.py:137-138 | The filtered list is empty exactly when no uplink has the name. Otherwise its head is the first uplink with that name. |
| EdgeGateways.FilterCounts | src/vcdNSXMigratorCleanup.py:137 | The filter keeps each uplink with the name exactly as many times as the list holds it, and drops every other uplink. |
| EdgeGateways.IpPoolUpdateCases | src/vcdNSXMigratorCleanup.py:137-144 | An update happens exactly when the first gateway has an uplink with the name and that uplink's first subnet has non-empty ranges; the update carries exactly those ranges. An empty gateway list, or a first match with no subnets, is an IndexError. Every other payload is a skip, in both directions. |
| RemoteClients.Remote.constructor | src/vcdNSXMigratorCleanup.py:47-55 | The remote systems start with the given oracle and the given earlier trace. |
| RemoteClients.Remote.Perform | src/vcdNSXMigratorCleanup.py:41-152 | A call is appended to the trace. It raises exactly when the oracle says so for its position. |
| RemoteClients.VCloudDirectorOperations.constructor | src/vcdNSXMigratorCleanup.py:47-50 | The Cloud Director client talks to the given remote systems. |
| RemoteClients.NSXTOperations.constructor | src/vcdNSXMigratorCleanup.py:54-55 | The NSX-T client talks to the given remote systems. |
| RemoteClients.VCloudDirectorOperations.VcdLogin | src/vcdNSXMigratorCleanup.py:59 | Appends `vcdLogin` to the trace. Its outcome is the oracle's for that position. |
| RemoteClients.NSXTOperations.GetComputeManagers | src/vcdNSXMigratorCleanup.py:63 | Appends `getComputeManagers`. Its outcome is the oracle's. |
| RemoteClients.VCloudDirectorOperations.GetOrgUrl | src/vcdNSXMigratorCleanup.py:67 | Appends `getOrgUrl(orgName)`. Unless it raises, it returns the oracle's organisation URL for that position. |
| RemoteClients.VCloudDirectorOperations.GetProviderVDCId | src/vcdNSXMigratorCleanup.py:71 | Appends `getProviderVDCId(name)`. Unless it raises, it returns the oracle's id and NSX-T flag. |
| RemoteClients.VCloudDirectorOperations.GetOrgVDCDetails | src/vcdNSXMigratorCleanup.py:75 | Appends `getOrgVDCDetails` with its four arguments. Unless it raises, it returns the oracle's org VDC id. |
| RemoteClients.VCloudDirectorOperations.ValidateOrgVDCNSXbacking | src/vcdNSXMigratorCleanup.py:79 | Appends the backing check with the org VDC id, the provider VDC id and the flag. Its outcome is the oracle's. |
| RemoteClients.VCloudDirectorOperations.GetOrgVDCEdgeGateway | src/vcdNSXMigratorCleanup.py:82 | Appends the gateway lookup. Unless it raises, it returns the oracle's payload. |
| RemoteClients.VCloudDirectorOperations.ValidateTargetOrgVDCState | src/vcdNSXMigratorCleanup.py:98 | Appends the state check. Its outcome is the oracle's. |
| RemoteClients.VCloudDirectorOperations.GetOrgVDCNetworks | src/vcdNSXMigratorCleanup.py:102 | Appends the network lookup. Unless it raises, it returns the oracle's network list. |
| RemoteClients.VCloudDirectorOperations.ValidateVappVMsMediaState | src/vcdNSXMigratorCleanup.py:106 | Appends the media check with `raiseError`. Its outcome is the oracle's. |
| RemoteClients.VCloudDirectorOperations.MigrateCatalogItems | src/vcdNSXMigratorCleanup.py:110 | Appends the catalog migration with the source id, target id and URL. Its outcome is the oracle's. |
| RemoteClients.NSXTOperations.ClearBridging | src/vcdNSXMigratorCleanup.py:114 | Appends the bridging removal with the network list. Its outcome is the oracle's. |
| RemoteClients.VCloudDirectorOperations.DeleteOrgVDCNetworks | src/vcdNSXMigratorCleanup.py:118 | Appends the network deletion with the org VDC id. Its outcome is the oracle's. |
| RemoteClients.VCloudDirectorOperations.DeleteNsxVBackedOrgVDCEdgeGateways | src/vcdNSXMigratorCleanup.py:122 | Appends the gateway deletion with the org VDC id. Its outcome is the oracle's. |
| RemoteClients.VCloudDirectorOperations.DeleteOrgVDC | src/vcdNSXMigratorCleanup.py:126 | Appends the org VDC deletion. Its outcome is the oracle's. |
| RemoteClients.VCloudDirectorOperations.RenameTargetOrgVDCNetworks | src/vcdNSXMigratorCleanup.py:130 | Appends the network rename with the org VDC id. Its outcome is the oracle's. |
| RemoteClients.VCloudDirectorOperations.RenameOrgVDC | src/vcdNSXMigratorCleanup.py:134 | Appends the org VDC rename with the new name and the id. Its outcome is the oracle's. |
| RemoteClients.VCloudDirectorOperations.UpdateSourceExternalNetwork | src/vcdNSXMigratorCleanup.py:144 | Appends the IP-pool update with the network name and the ranges. Its outcome is the oracle's. |
| RemoteClients.VCloudDirectorOperations.DeleteSession | src/vcdNSXMigratorCleanup.py:149 | Appends the logout. Its outcome is the oracle's. |
| Cleanup.TargetOrgVDCName | src/vcdNSXMigratorCleanup.py:89-90 | The target's name is the source name followed by exactly `-t`, two characters longer. |
| Cleanup.NextStep | src/vcdNSXMigratorCleanup.py:59-149 | The step table: each of the first 20 steps makes a call; only step 20 can abort, and then with the IndexError; past step 21 the run finishes. |
| Cleanup.SourceStep | src/vcdNSXMigratorCleanup.py:59-82 | Steps 0-6 (the two logins, then the organisation, source provider VDC, source org VDC, backing check and gateway lookups, each with the earlier replies as arguments) always make a call. |
| Cleanup.TargetStep | src/vcdNSXMigratorCleanup.py:86-106 | Steps 7-12 (the target lookups and the three target gates) always make a call. |
| Cleanup.TeardownStep | src/vcdNSXMigratorCleanup.py:110-134 | Steps 13-19 (catalog, bridging, the three deletions, the two renames) always make a call. |
| Cleanup.FinalStep | src/vcdNSXMigratorCleanup.py:137-149 | Steps 20-21 make the IP-pool update and then the logout, as the decision on the step-6 payload says. They make calls only at steps 20 and 21, and abort only at step 20, with the IndexError. |
| Cleanup.Exec | src/vcdNSXMigratorCleanup.py:41-152 | The fail-fast driver: it makes the prescribed calls in turn and stops at the first one that raises, with that exception. It only ever adds calls after those already made, and a run has at most 22 calls. |
| Cleanup.Workflow | src/vcdNSXMigratorCleanup.py:41-152 | A whole run from the first step makes at most 22 calls. |
| Cleanup.VMwareCloudDirectorNSXMigratorCleanup.constructor | src/vcdNSXMigratorCleanup.py:27-35 | The workflow object holds the configuration it is given. |
| Cleanup.VMwareCloudDirectorNSXMigratorCleanup.LogIn | src/vcdNSXMigratorCleanup.py:57-63 | Makes the two logins. If one raises, the trace and outcome are those of the whole run. Otherwise the run goes on from these two calls. |
| Cleanup.VMwareCloudDirectorNSXMigratorCleanup.ValidateSource | src/vcdNSXMigratorCleanup.py:65-82 | Makes steps 2-6 of the run. If one raises, the trace and outcome are the run's. Otherwise it returns the organisation URL, the source org VDC id and the gateway payload that those calls replied. |
| Cleanup.VMwareCloudDirectorNSXMigratorCleanup.LookUpTarget | src/vcdNSXMigratorCleanup.py:84-94 | Makes steps 7-9: the target provider VDC lookup, the `-t` org VDC lookup, and the backing check with the target provider VDC's own id and flag. If one raises, the trace and outcome are the run's. Otherwise it returns the target org VDC id that was replied. |
| Cleanup.VMwareCloudDirectorNSXMigratorCleanup.ValidateTarget | src/vcdNSXMigratorCleanup.py:96-106 | Makes steps 10-12: the target-state check, the network lookup and the raising media check. If one raises, the trace and outcome are the run's. Otherwise it returns the network list that was replied. |
| Cleanup.VMwareCloudDirectorNSXMigratorCleanup.Teardown | src/vcdNSXMigratorCleanup.py:108-126 | Makes steps 13-17: catalog, bridging, and the three deletions, on the looked-up ids. If one raises, the trace and outcome are the run's. |
| Cleanup.VMwareCloudDirectorNSXMigratorCleanup.PromoteTarget | src/vcdNSXMigratorCleanup.py:128-134 | Makes steps 18-19, the two renames. If one raises, the trace and outcome are the run's. |
| Cleanup.VMwareCloudDirectorNSXMigratorCleanup.ReleaseIpRanges | src/vcdNSXMigratorCleanup.py:136-149 | Takes the IP-pool decision from the payload, makes the update when asked and then the logout, and leaves exactly the run's trace and outcome. |
| Cleanup.VMwareCloudDirectorNSXMigratorCleanup.Run | src/vcdNSXMigratorCleanup.py:37-152 | The trace gains exactly the calls of `Workflow`, and the outcome is `Workflow`'s. |
| CleanupProperties.PlanMatchesTable | src/vcdNSXMigratorCleanup.py:59-149 | The step table prescribes, step by step, exactly the calls of the reference listing, which has 20 to 22 calls. After the listing the table finishes, or aborts with the IndexError when the decision is one. |
| CleanupProperties.ExecFollowsPlan | src/vcdNSXMigratorCleanup.py:41-152 | From any returned prefix of the listing, the rest of the run keeps the shape: its calls are a prefix of the listing. Success means all calls returned and there was no IndexError. A remote failure is the outcome of the last call made. |
| CleanupProperties.WorkflowShape | src/vcdNSXMigratorCleanup.py:41-152 | Every run has that shape. |
| CleanupProperties.TraceFollowsPlan | src/vcdNSXMigratorCleanup.py:59-149 | The calls of every run are, position by position, the listed ones, and there are no more of them. |
| CleanupProperties.ReturnsBeforeEachCall | src/vcdNSXMigratorCleanup.py:41-152 | A call is made only after every earlier call returned: there is no retry or recovery. |
| CleanupProperties.SuccessfulRunTrace | src/vcdNSXMigratorCleanup.py:59-149 | A run succeeds exactly when every listed call returns and the decision is not an IndexError. It then made exactly the listed calls. |
| CleanupProperties.FailFast | src/vcdNSXMigratorCleanup.py:41-152 | If the calls before step k return and step k raises, the run made exactly steps 0..k and fails with that exception. |
| CleanupProperties.MutationsFromStep13 | src/vcdNSXMigratorCleanup.py:59-110 | A mutating call is made only from step 13 on, after the first 13 calls returned. |
| CleanupProperties.GatesBeforeMutation | src/vcdNSXMigratorCleanup.py:79-110 | A mutating call is made only after both backing checks, the target-state check and the raising media check were made at steps 5, 9, 10 and 12 and returned. |
| CleanupProperties.DestructionOrder | src/vcdNSXMigratorCleanup.py:110-134 | The catalog migration, bridging removal, three deletions and two renames each occur only at their own step, 13 to 19, in that order, each after all earlier calls returned. |
| CleanupProperties.OrgVDCLookupSteps | src/vcdNSXMigratorCleanup.py:75-90 | Org VDC details are fetched at steps 4 and 8 only. |
| CleanupProperties.OrgVDCLookups | src/vcdNSXMigratorCleanup.py:75-102 | The source org VDC is looked up by the source name and the target by the source name plus `-t`, both in the returned organisation. The network list is fetched for the target. |
| CleanupProperties.TeardownTargets | src/vcdNSXMigratorCleanup.py:110-134 | The catalog moves from the source to the target. The bridging removed is that of the target's networks. The deletions act on the source id and the renames on the target id. The org VDC gets the unsuffixed source name. |
| CleanupProperties.BackingCheckSteps | src/vcdNSXMigratorCleanup.py:71-94 | Provider VDCs are looked up at steps 3 and 7 only. The backing checks are made at steps 5 and 9 only. |
| CleanupProperties.BackingChecksUseTheirOwnLookup | src/vcdNSXMigratorCleanup.py:71-94 | Each backing check uses the id and the NSX-T flag of its own provider-VDC lookup (source, then target) and its own org VDC. |
| CleanupProperties.UplinkSelectionInRun | src/vcdNSXMigratorCleanup.py:137-144 | The IP-pool update is made at most once, at step 20, with the configured name and exactly the decision's ranges. Once the renames have returned, the update is made exactly when the decision is an update. A skip goes on to the logout without failing. An IndexError ends the run after the renames. |
| CleanupProperties.PastTheRenames | src/vcdNSXMigratorCleanup.py:134-149 | Once the renames have returned, the run reaches step 20 when the listing has it, or otherwise ends with the IndexError. |
| CleanupProperties.SnapshotUse | src/vcdNSXMigratorCleanup.py:82-144 | The gateway payload is fetched once, at step 6, for the source org VDC. The update's ranges come from that payload, and the update is made after the gateway deletion at step 16 returned. |
| CleanupProperties.LogoutLast | src/vcdNSXMigratorCleanup.py:145-152 | The logout occurs at most once, as the last call and after every mutating call. The run's outcome is the logout's own, so its failure propagates. |
| CleanupProperties.SuccessEndsWithLogout | src/vcdNSXMigratorCleanup.py:145-149 | A successful run ends with the logout. |

## Left out

- Logging: the logger set-up at lines 31-33 and every `consoleLogger.info`/`debug` message. They are not behaviour.
- The `sys.path` and working-directory changes at lines 13-16. They are process set-up.
- Reading the configuration dictionaries at lines 43-55, 70-71 and 85-86 (addresses, user names, passwords, `verify`, the two provider VDC names):
  - the model takes the five settings it uses as a `Config` record;
  - a missing key, which would raise `KeyError`, is not modelled. This includes the provider VDC names read mid-run at lines 70-71 and 85-86, where a missing key would end the run after the earlier calls;
  - building the clients is modelled as attaching them to the shared remote systems, with no failure of its own.
- The internals of the two clients (REST requests, bearer tokens, pagination, `saveResponse` files) are not part of this model. Each call is opaque: its failure and its reply come from the oracle. What "NSX-T backed", "enabled" or "media attached" mean is decided there too.
- A gateway payload without the keys the source indexes (`values`, `edgeGatewayUplinks`, `subnets`, `ipRanges`) would raise `KeyError`. The payload datatypes always carry those fields, so this case is not modelled. Only the empty-list `IndexError` is.
- The exception types: a client exception is modelled as one `RemoteError` carrying a message, and `[0]` on an empty list as `IndexError`.
- The oracle's replies depend on the call's position in the trace, not on the call's arguments. For one run the position determines every earlier call, so no behaviour of the remote systems is excluded.
- Concurrency, retries and timeouts: the source has none.
