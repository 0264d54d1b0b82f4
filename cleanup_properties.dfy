/**
 * What the cleanup workflow promises, proved about `Workflow` (and so about
 * every trace `Run` leaves behind): the calls it makes are a prefix of one
 * fixed listing, it stops at the first call that raises, no mutating call is
 * made before every validation gate has passed, the teardown happens in the
 * source's order on the right org VDCs, the IP-pool update follows the
 * uplink-selection rule on the gateway snapshot, and logging out comes last.
 */
module CleanupProperties {
  import opened EdgeGateways
  import opened RemoteClients
  import opened Cleanup

  /** The IP-pool decision a run takes, from the gateway payload returned at step 6. */
  function Decision(cfg: Config, o: Oracle, base: nat): IpPoolDecision
  {
    IpPoolUpdate(o.edgeGateways(base + 6), cfg.sourceExternalNetworkName)
  }

  /**
   * The call the source makes at step `i` of the first twenty, numbered in
   * the order the source writes them; each argument is the configured value
   * or the reply of the earlier step it was assigned from.
   */
  function Listed(cfg: Config, o: Oracle, base: nat, i: nat): Call
    requires i < 20
  {
    match i
    case 0 => Call.VcdLogin
    case 1 => Call.GetComputeManagers
    case 2 => Call.GetOrgUrl(cfg.orgName)
    case 3 => Call.GetProviderVDCId(cfg.sourceProviderVDCName)
    case 4 => Call.GetOrgVDCDetails(o.orgUrl(base + 2), cfg.sourceOrgVDCName, "sourceOrgVDC", false)
    case 5 => Call.ValidateOrgVDCNSXbacking(o.orgVDCId(base + 4), o.providerVDC(base + 3).id, o.providerVDC(base + 3).isNSXTbacked)
    case 6 => Call.GetOrgVDCEdgeGateway(o.orgVDCId(base + 4))
    case 7 => Call.GetProviderVDCId(cfg.targetProviderVDCName)
    case 8 => Call.GetOrgVDCDetails(o.orgUrl(base + 2), cfg.sourceOrgVDCName + "-t", "targetOrgVDC", false)
    case 9 => Call.ValidateOrgVDCNSXbacking(o.orgVDCId(base + 8), o.providerVDC(base + 7).id, o.providerVDC(base + 7).isNSXTbacked)
    case 10 => Call.ValidateTargetOrgVDCState(o.orgVDCId(base + 8))
    case 11 => Call.GetOrgVDCNetworks(o.orgVDCId(base + 8), "targetOrgVDCNetworks", false)
    case 12 => Call.ValidateVappVMsMediaState(o.orgVDCId(base + 8), true)
    case 13 => Call.MigrateCatalogItems(o.orgVDCId(base + 4), o.orgVDCId(base + 8), o.orgUrl(base + 2))
    case 14 => Call.ClearBridging(o.orgVDCNetworks(base + 11))
    case 15 => Call.DeleteOrgVDCNetworks(o.orgVDCId(base + 4))
    case 16 => Call.DeleteNsxVBackedOrgVDCEdgeGateways(o.orgVDCId(base + 4))
    case 17 => Call.DeleteOrgVDC(o.orgVDCId(base + 4))
    case 18 => Call.RenameTargetOrgVDCNetworks(o.orgVDCId(base + 8))
    case _ => Call.RenameOrgVDC(cfg.sourceOrgVDCName, o.orgVDCId(base + 8))
  }

  /**
   * The calls of a run in which no call raises: the twenty listed steps,
   * then the IP-pool update when the decision asks for one, then logging
   * out (which an indexing error prevents).
   */
  function Plan(cfg: Config, o: Oracle, base: nat): seq<Call>
  {
    seq(20, i requires 0 <= i < 20 => Listed(cfg, o, base, i))
    + match Decision(cfg, o, base)
      case IndexOutOfRange => []
      case Skip => [Call.DeleteSession]
      case Update(ipRanges) => [Call.UpdateSourceExternalNetwork(cfg.sourceExternalNetworkName, ipRanges), Call.DeleteSession]
  }

  /** Every call at positions `base` to `base + n - 1` returns. */
  ghost predicate AllPass(o: Oracle, base: nat, n: nat)
  {
    forall p :: base <= p < base + n ==> Status(o, p).Pass?
  }

  /** The calls that change the remote systems. */
  predicate Mutates(c: Call)
  {
    || c.MigrateCatalogItems? || c.ClearBridging?
    || c.DeleteOrgVDCNetworks? || c.DeleteNsxVBackedOrgVDCEdgeGateways? || c.DeleteOrgVDC?
    || c.RenameTargetOrgVDCNetworks? || c.RenameOrgVDC?
    || c.UpdateSourceExternalNetwork?
  }

  /**
   * The shape of every run: its calls are a prefix of the listing; it
   * succeeds only after making all of them, each returning, with a decision
   * other than an indexing error; it fails with the indexing error only
   * after making all of them; and it fails with a remote error only on its
   * last call, after every earlier one returned.
   */
  ghost predicate Shape(cfg: Config, o: Oracle, base: nat, r: Execution)
  {
    var plan := Plan(cfg, o, base);
    && |r.calls| <= |plan| && r.calls == plan[..|r.calls|]
    && (r.outcome.Pass? ==>
          r.calls == plan && AllPass(o, base, |plan|) && !Decision(cfg, o, base).IndexOutOfRange?)
    && (r.outcome == Fail(IndexError) ==>
          r.calls == plan && AllPass(o, base, |plan|) && Decision(cfg, o, base).IndexOutOfRange?)
    && (r.outcome.Fail? && r.outcome.error.RemoteError? ==>
          |r.calls| >= 1 && AllPass(o, base, |r.calls| - 1) && r.outcome == Status(o, base + |r.calls| - 1))
  }

  /**
   * The step table prescribes exactly the listed calls, one per step, and
   * afterwards either finishes or, when the first gateway or the first
   * matching uplink's subnets are missing, aborts with the indexing error.
   */
  lemma PlanMatchesTable(cfg: Config, o: Oracle, base: nat)
    ensures 20 <= |Plan(cfg, o, base)| <= 22
    ensures forall n :: 0 <= n < |Plan(cfg, o, base)| ==> NextStep(cfg, o, base, n) == Make(Plan(cfg, o, base)[n])
    ensures |Plan(cfg, o, base)| < 22 ==>
              NextStep(cfg, o, base, |Plan(cfg, o, base)|) ==
                if Decision(cfg, o, base).IndexOutOfRange? then Abort(IndexError) else Finish
  {
  }

  /** From any point of the listing reached with every call returning, the driver keeps to the shape. */
  lemma {:induction false} ExecFollowsPlan(cfg: Config, o: Oracle, base: nat, done: seq<Call>)
    requires |done| <= |Plan(cfg, o, base)| && done == Plan(cfg, o, base)[..|done|]
    requires AllPass(o, base, |done|)
    ensures Shape(cfg, o, base, Exec(cfg, o, base, done))
    decreases 22 - |done|
  {
    var plan := Plan(cfg, o, base);
    PlanMatchesTable(cfg, o, base);
    if |done| < |plan| {
      var c := plan[|done|];
      assert done + [c] == plan[..|done| + 1];
      if Status(o, base + |done|).Pass? {
        ExecFollowsPlan(cfg, o, base, done + [c]);
      }
    } else {
      assert done == plan;
    }
  }

  /** Every run has the shape. */
  lemma WorkflowShape(cfg: Config, o: Oracle, base: nat)
    ensures Shape(cfg, o, base, Workflow(cfg, o, base))
  {
    ExecFollowsPlan(cfg, o, base, []);
  }

  /** The calls a run makes are the listed ones, step by step. */
  lemma TraceFollowsPlan(cfg: Config, o: Oracle, base: nat)
    ensures |Workflow(cfg, o, base).calls| <= |Plan(cfg, o, base)|
    ensures forall i :: 0 <= i < |Workflow(cfg, o, base).calls| ==> Workflow(cfg, o, base).calls[i] == Plan(cfg, o, base)[i]
  {
    WorkflowShape(cfg, o, base);
  }

  /** A call is made only after every earlier call returned: nothing is retried or recovered. */
  lemma ReturnsBeforeEachCall(cfg: Config, o: Oracle, base: nat)
    ensures forall i :: 0 <= i < |Workflow(cfg, o, base).calls| ==> AllPass(o, base, i)
  {
    WorkflowShape(cfg, o, base);
    var w := Workflow(cfg, o, base);
    forall i | 0 <= i < |w.calls| ensures AllPass(o, base, i) {
      if w.outcome.Fail? && w.outcome.error.RemoteError? {
        assert AllPass(o, base, |w.calls| - 1);
      } else {
        assert AllPass(o, base, |w.calls|);
      }
    }
  }

  /** Where the listing looks things up and checks them. */
  lemma PlanLookups(cfg: Config, o: Oracle, base: nat, i: nat)
    requires i < |Plan(cfg, o, base)|
    ensures Plan(cfg, o, base)[i].GetProviderVDCId? <==> i == 3 || i == 7
    ensures Plan(cfg, o, base)[i].GetOrgVDCDetails? <==> i == 4 || i == 8
    ensures Plan(cfg, o, base)[i].ValidateOrgVDCNSXbacking? <==> i == 5 || i == 9
    ensures Plan(cfg, o, base)[i].GetOrgVDCEdgeGateway? <==> i == 6
  {
  }

  /** Where the listing moves the catalog, tears the source down and renames. */
  lemma PlanTeardown(cfg: Config, o: Oracle, base: nat, i: nat)
    requires i < |Plan(cfg, o, base)|
    ensures Plan(cfg, o, base)[i].MigrateCatalogItems? <==> i == 13
    ensures Plan(cfg, o, base)[i].ClearBridging? <==> i == 14
    ensures Plan(cfg, o, base)[i].DeleteOrgVDCNetworks? <==> i == 15
    ensures Plan(cfg, o, base)[i].DeleteNsxVBackedOrgVDCEdgeGateways? <==> i == 16
    ensures Plan(cfg, o, base)[i].DeleteOrgVDC? <==> i == 17
    ensures Plan(cfg, o, base)[i].RenameTargetOrgVDCNetworks? <==> i == 18
    ensures Plan(cfg, o, base)[i].RenameOrgVDC? <==> i == 19
  {
  }

  /** Where the listing updates the IP pool and logs out. */
  lemma PlanTail(cfg: Config, o: Oracle, base: nat, i: nat)
    requires i < |Plan(cfg, o, base)|
    ensures Plan(cfg, o, base)[i].UpdateSourceExternalNetwork? <==> i == 20 && Decision(cfg, o, base).Update?
    ensures Plan(cfg, o, base)[i].DeleteSession? <==> 20 <= i == |Plan(cfg, o, base)| - 1
  {
  }

  /** The listing changes the remote systems from step 13 on only. */
  lemma PlanMutations(cfg: Config, o: Oracle, base: nat, i: nat)
    requires i < |Plan(cfg, o, base)|
    ensures Mutates(Plan(cfg, o, base)[i]) <==> 13 <= i < 20 || Plan(cfg, o, base)[i].UpdateSourceExternalNetwork?
  {
  }

  /**
   * A run succeeds exactly when every listed call returns and the decision
   * is not an indexing error, and then it has made exactly the listed calls.
   */
  lemma SuccessfulRunTrace(cfg: Config, o: Oracle, base: nat)
    ensures Workflow(cfg, o, base).outcome.Pass? <==>
              AllPass(o, base, |Plan(cfg, o, base)|) && !Decision(cfg, o, base).IndexOutOfRange?
    ensures Workflow(cfg, o, base).outcome.Pass? ==> Workflow(cfg, o, base).calls == Plan(cfg, o, base)
  {
    WorkflowShape(cfg, o, base);
    var w := Workflow(cfg, o, base);
    if w.outcome.Fail? && w.outcome.error.RemoteError? {
      assert Status(o, base + (|w.calls| - 1)).Fail?;
    }
  }

  /**
   * Fail-fast: when the calls before step `k` return and the call at step
   * `k` raises, the run has made exactly the listed calls up to and
   * including step `k`, and fails with that call's exception.
   */
  lemma FailFast(cfg: Config, o: Oracle, base: nat, k: nat)
    requires k < |Plan(cfg, o, base)|
    requires AllPass(o, base, k) && Status(o, base + k).Fail?
    ensures Workflow(cfg, o, base) == Execution(Plan(cfg, o, base)[..k + 1], Status(o, base + k))
  {
    WorkflowShape(cfg, o, base);
    var w := Workflow(cfg, o, base);
    assert !AllPass(o, base, |Plan(cfg, o, base)|);
    assert !AllPass(o, base, k + 1);
  }

  /** A call that changes the remote systems is made only from step 13 on, once the first 13 calls returned. */
  lemma MutationsFromStep13(cfg: Config, o: Oracle, base: nat)
    ensures forall i :: 0 <= i < |Workflow(cfg, o, base).calls| && Mutates(Workflow(cfg, o, base).calls[i]) ==>
              13 <= i && AllPass(o, base, 13)
  {
    TraceFollowsPlan(cfg, o, base);
    ReturnsBeforeEachCall(cfg, o, base);
    var w := Workflow(cfg, o, base);
    forall i | 0 <= i < |w.calls| && Mutates(w.calls[i]) ensures 13 <= i && AllPass(o, base, 13) {
      PlanMutations(cfg, o, base, i);
      assert AllPass(o, base, i);
    }
  }

  /**
   * Validation gates: a call that changes the remote systems is made only
   * after both backing checks, the target-state check and the media check
   * (the one that raises) were made at steps 5, 9, 10 and 12 and returned.
   */
  lemma GatesBeforeMutation(cfg: Config, o: Oracle, base: nat)
    ensures forall i :: 0 <= i < |Workflow(cfg, o, base).calls| && Mutates(Workflow(cfg, o, base).calls[i]) ==>
              && 12 < |Workflow(cfg, o, base).calls|
              && Workflow(cfg, o, base).calls[5].ValidateOrgVDCNSXbacking?
              && Workflow(cfg, o, base).calls[9].ValidateOrgVDCNSXbacking?
              && Workflow(cfg, o, base).calls[10].ValidateTargetOrgVDCState?
              && Workflow(cfg, o, base).calls[12] == Call.ValidateVappVMsMediaState(o.orgVDCId(base + 8), true)
              && Status(o, base + 5).Pass? && Status(o, base + 9).Pass?
              && Status(o, base + 10).Pass? && Status(o, base + 12).Pass?
  {
    MutationsFromStep13(cfg, o, base);
    TraceFollowsPlan(cfg, o, base);
    var w := Workflow(cfg, o, base);
    if 12 < |w.calls| && AllPass(o, base, 13) {
      assert Status(o, base + 5).Pass? && Status(o, base + 9).Pass?;
      assert Status(o, base + 10).Pass? && Status(o, base + 12).Pass?;
    }
  }

  /**
   * Teardown order: the catalog migration, the bridging removal, the three
   * deletions and the two renames are each made at most once, at steps 13
   * to 19 in that order, and each only after every earlier call returned.
   */
  lemma DestructionOrder(cfg: Config, o: Oracle, base: nat)
    ensures forall i :: 0 <= i < |Workflow(cfg, o, base).calls| ==>
              && (Workflow(cfg, o, base).calls[i].MigrateCatalogItems? <==> i == 13)
              && (Workflow(cfg, o, base).calls[i].ClearBridging? <==> i == 14)
              && (Workflow(cfg, o, base).calls[i].DeleteOrgVDCNetworks? <==> i == 15)
              && (Workflow(cfg, o, base).calls[i].DeleteNsxVBackedOrgVDCEdgeGateways? <==> i == 16)
              && (Workflow(cfg, o, base).calls[i].DeleteOrgVDC? <==> i == 17)
              && (Workflow(cfg, o, base).calls[i].RenameTargetOrgVDCNetworks? <==> i == 18)
              && (Workflow(cfg, o, base).calls[i].RenameOrgVDC? <==> i == 19)
              && AllPass(o, base, i)
  {
    TraceFollowsPlan(cfg, o, base);
    ReturnsBeforeEachCall(cfg, o, base);
    forall i | 0 <= i < |Workflow(cfg, o, base).calls| {
      PlanTeardown(cfg, o, base, i);
    }
  }

  /** Org VDC details are fetched at steps 4 and 8 only. */
  lemma OrgVDCLookupSteps(cfg: Config, o: Oracle, base: nat)
    ensures forall i :: 0 <= i < |Workflow(cfg, o, base).calls| && Workflow(cfg, o, base).calls[i].GetOrgVDCDetails? ==>
              i == 4 || i == 8
  {
    TraceFollowsPlan(cfg, o, base);
    var w := Workflow(cfg, o, base);
    forall i | 0 <= i < |w.calls| && w.calls[i].GetOrgVDCDetails? ensures i == 4 || i == 8 {
      PlanLookups(cfg, o, base, i);
    }
  }

  /**
   * Naming: the org VDC returned at step 4 is looked up by the source name
   * and the one returned at step 8 by the source name with "-t" appended,
   * both in the organisation returned at step 2; the networks listed at
   * step 11 are the target's.
   */
  lemma OrgVDCLookups(cfg: Config, o: Oracle, base: nat)
    ensures |Workflow(cfg, o, base).calls| > 4 ==>
              Workflow(cfg, o, base).calls[4] ==
                Call.GetOrgVDCDetails(o.orgUrl(base + 2), cfg.sourceOrgVDCName, "sourceOrgVDC", false)
    ensures |Workflow(cfg, o, base).calls| > 8 ==>
              Workflow(cfg, o, base).calls[8] ==
                Call.GetOrgVDCDetails(o.orgUrl(base + 2), TargetOrgVDCName(cfg.sourceOrgVDCName), "targetOrgVDC", false)
    ensures |Workflow(cfg, o, base).calls| > 11 ==>
              Workflow(cfg, o, base).calls[11] == Call.GetOrgVDCNetworks(o.orgVDCId(base + 8), "targetOrgVDCNetworks", false)
  {
    TraceFollowsPlan(cfg, o, base);
  }

  /**
   * The source org VDC is the one deleted, the target org VDC the one
   * renamed: the catalog moves from the org VDC returned at step 4 to the
   * one returned at step 8, the bridging removed is that of the target's
   * networks returned at step 11, the deletions act on the source id and
   * the renames on the target id, the org VDC taking back the unsuffixed
   * source name.
   */
  lemma TeardownTargets(cfg: Config, o: Oracle, base: nat)
    ensures forall i :: 0 <= i < |Workflow(cfg, o, base).calls| ==>
              var c := Workflow(cfg, o, base).calls[i];
              && (c.MigrateCatalogItems? ==>
                    c == Call.MigrateCatalogItems(o.orgVDCId(base + 4), o.orgVDCId(base + 8), o.orgUrl(base + 2)))
              && (c.ClearBridging? ==> c.orgVDCNetworkList == o.orgVDCNetworks(base + 11))
              && (c.DeleteOrgVDCNetworks? ==> c.orgVDCId == o.orgVDCId(base + 4))
              && (c.DeleteNsxVBackedOrgVDCEdgeGateways? ==> c.orgVDCId == o.orgVDCId(base + 4))
              && (c.DeleteOrgVDC? ==> c.orgVDCId == o.orgVDCId(base + 4))
              && (c.RenameTargetOrgVDCNetworks? ==> c.orgVDCId == o.orgVDCId(base + 8))
              && (c.RenameOrgVDC? ==> c == Call.RenameOrgVDC(cfg.sourceOrgVDCName, o.orgVDCId(base + 8)))
  {
    TraceFollowsPlan(cfg, o, base);
    forall i | 0 <= i < |Workflow(cfg, o, base).calls| {
      PlanTeardown(cfg, o, base, i);
    }
  }

  /** The provider VDCs are looked up at steps 3 and 7 only, and the backing checks made at steps 5 and 9 only. */
  lemma BackingCheckSteps(cfg: Config, o: Oracle, base: nat)
    ensures forall i :: 0 <= i < |Workflow(cfg, o, base).calls| && Workflow(cfg, o, base).calls[i].GetProviderVDCId? ==>
              i == 3 || i == 7
    ensures forall i :: 0 <= i < |Workflow(cfg, o, base).calls| && Workflow(cfg, o, base).calls[i].ValidateOrgVDCNSXbacking? ==>
              i == 5 || i == 9
  {
    TraceFollowsPlan(cfg, o, base);
    var w := Workflow(cfg, o, base);
    forall i | 0 <= i < |w.calls| && (w.calls[i].GetProviderVDCId? || w.calls[i].ValidateOrgVDCNSXbacking?)
      ensures w.calls[i].GetProviderVDCId? ==> i == 3 || i == 7
      ensures w.calls[i].ValidateOrgVDCNSXbacking? ==> i == 5 || i == 9
    {
      PlanLookups(cfg, o, base, i);
    }
  }

  /**
   * Flag flow: each backing check is made with the id and the NSX-T flag
   * returned by the provider-VDC lookup two steps before it (no other
   * lookup comes in between) and the org VDC id returned just before it:
   * the source provider VDC with the source org VDC, then the target
   * provider VDC with the target org VDC.
   */
  lemma BackingChecksUseTheirOwnLookup(cfg: Config, o: Oracle, base: nat)
    ensures |Workflow(cfg, o, base).calls| > 5 ==>
              && Workflow(cfg, o, base).calls[3] == Call.GetProviderVDCId(cfg.sourceProviderVDCName)
              && Workflow(cfg, o, base).calls[5] ==
                   Call.ValidateOrgVDCNSXbacking(o.orgVDCId(base + 4), o.providerVDC(base + 3).id, o.providerVDC(base + 3).isNSXTbacked)
    ensures |Workflow(cfg, o, base).calls| > 9 ==>
              && Workflow(cfg, o, base).calls[7] == Call.GetProviderVDCId(cfg.targetProviderVDCName)
              && Workflow(cfg, o, base).calls[9] ==
                   Call.ValidateOrgVDCNSXbacking(o.orgVDCId(base + 8), o.providerVDC(base + 7).id, o.providerVDC(base + 7).isNSXTbacked)
  {
    TraceFollowsPlan(cfg, o, base);
  }

  /**
   * Uplink selection in a run: the external network's IP pool is updated
   * at most once, at step 20, with the configured network name and exactly
   * the decision's ranges; once the renames have returned it is updated
   * exactly when the decision says so; a skip goes straight on to logging
   * out, and an indexing error ends the run after the renames.
   */
  lemma UplinkSelectionInRun(cfg: Config, o: Oracle, base: nat)
    ensures forall i :: 0 <= i < |Workflow(cfg, o, base).calls| && Workflow(cfg, o, base).calls[i].UpdateSourceExternalNetwork? ==>
              && i == 20 && Decision(cfg, o, base).Update?
              && Workflow(cfg, o, base).calls[i] ==
                   Call.UpdateSourceExternalNetwork(cfg.sourceExternalNetworkName, Decision(cfg, o, base).ipRanges)
    ensures AllPass(o, base, 20) ==>
              ((exists i :: 0 <= i < |Workflow(cfg, o, base).calls| && Workflow(cfg, o, base).calls[i].UpdateSourceExternalNetwork?)
                 <==> Decision(cfg, o, base).Update?)
    ensures AllPass(o, base, 20) && Decision(cfg, o, base).Skip? ==>
              Workflow(cfg, o, base) == Execution(Plan(cfg, o, base), Status(o, base + 20))
              && Plan(cfg, o, base)[20] == Call.DeleteSession
    ensures AllPass(o, base, 20) && Decision(cfg, o, base).IndexOutOfRange? ==>
              Workflow(cfg, o, base) == Execution(Plan(cfg, o, base), Fail(IndexError)) && |Plan(cfg, o, base)| == 20
  {
    TraceFollowsPlan(cfg, o, base);
    var w := Workflow(cfg, o, base);
    var plan := Plan(cfg, o, base);
    forall i | 0 <= i < |w.calls| {
      PlanTail(cfg, o, base, i);
    }
    if AllPass(o, base, 20) && !Decision(cfg, o, base).IndexOutOfRange? {
      if Status(o, base + 20).Fail? {
        FailFast(cfg, o, base, 20);
      } else {
        PastTheRenames(cfg, o, base);
        SuccessfulRunTrace(cfg, o, base);
      }
    } else if AllPass(o, base, 20) {
      PastTheRenames(cfg, o, base);
    }
    if |w.calls| > 20 {
      PlanTail(cfg, o, base, 20);
      assert w.calls[20] == plan[20];
    }
  }

  /**
   * Once the renames have returned the run goes on to step 20 if the
   * listing does, and otherwise ends with the indexing error.
   */
  lemma PastTheRenames(cfg: Config, o: Oracle, base: nat)
    requires AllPass(o, base, 20)
    ensures |Plan(cfg, o, base)| > 20 ==> |Workflow(cfg, o, base).calls| > 20
    ensures |Plan(cfg, o, base)| > 20 && Decision(cfg, o, base).Skip? ==>
              Workflow(cfg, o, base) == Execution(Plan(cfg, o, base), Status(o, base + 20))
    ensures |Plan(cfg, o, base)| == 20 ==> Workflow(cfg, o, base) == Execution(Plan(cfg, o, base), Fail(IndexError))
  {
    WorkflowShape(cfg, o, base);
    var w := Workflow(cfg, o, base);
    if w.outcome.Fail? && w.outcome.error.RemoteError? {
      assert Status(o, base + (|w.calls| - 1)).Fail?;
    }
  }

  /**
   * Snapshot use: the gateway payload is fetched once, at step 6, for the
   * source org VDC; the ranges handed to the external network are taken
   * from that payload, and the update comes after the gateway's deletion at
   * step 16 has returned.
   */
  lemma SnapshotUse(cfg: Config, o: Oracle, base: nat)
    ensures forall i :: 0 <= i < |Workflow(cfg, o, base).calls| && Workflow(cfg, o, base).calls[i].GetOrgVDCEdgeGateway? ==>
              i == 6 && Workflow(cfg, o, base).calls[i].orgVDCId == o.orgVDCId(base + 4)
    ensures forall i :: 0 <= i < |Workflow(cfg, o, base).calls| && Workflow(cfg, o, base).calls[i].UpdateSourceExternalNetwork? ==>
              && IpPoolUpdate(o.edgeGateways(base + 6), cfg.sourceExternalNetworkName).Update?
              && Workflow(cfg, o, base).calls[i].ipRanges ==
                   IpPoolUpdate(o.edgeGateways(base + 6), cfg.sourceExternalNetworkName).ipRanges
              && 16 < i
              && Workflow(cfg, o, base).calls[16] == Call.DeleteNsxVBackedOrgVDCEdgeGateways(o.orgVDCId(base + 4))
              && Status(o, base + 16).Pass?
  {
    TraceFollowsPlan(cfg, o, base);
    ReturnsBeforeEachCall(cfg, o, base);
    var w := Workflow(cfg, o, base);
    forall i | 0 <= i < |w.calls| ensures w.calls[i].UpdateSourceExternalNetwork? ==> Status(o, base + 16).Pass? {
      PlanLookups(cfg, o, base, i);
      PlanTail(cfg, o, base, i);
      assert AllPass(o, base, i);
    }
  }

  /**
   * Logging out: the session is deleted at most once, as the last call
   * made and after every call that changes the remote systems; it is inside
   * the fail-fast scope, so the run's outcome is the logout's own (when it
   * raises, the run fails with its exception).
   */
  lemma LogoutLast(cfg: Config, o: Oracle, base: nat)
    ensures forall i :: 0 <= i < |Workflow(cfg, o, base).calls| && Workflow(cfg, o, base).calls[i].DeleteSession? ==>
              && i == |Workflow(cfg, o, base).calls| - 1
              && (forall j :: 0 <= j < |Workflow(cfg, o, base).calls| && Mutates(Workflow(cfg, o, base).calls[j]) ==> j < i)
              && Workflow(cfg, o, base).outcome == Status(o, base + i)
  {
    WorkflowShape(cfg, o, base);
    TraceFollowsPlan(cfg, o, base);
    var w := Workflow(cfg, o, base);
    var plan := Plan(cfg, o, base);
    forall i | 0 <= i < |w.calls| {
      PlanTail(cfg, o, base, i);
    }
    forall i | 0 <= i < |w.calls| {
      PlanMutations(cfg, o, base, i);
    }
    forall i | 0 <= i < |w.calls| && w.calls[i].DeleteSession? ensures w.outcome == Status(o, base + i) {
      if w.outcome.Pass? || w.outcome == Fail(IndexError) {
        assert base <= base + i < base + |plan|;
      }
    }
  }

  /** A successful run ends by logging out. */
  lemma SuccessEndsWithLogout(cfg: Config, o: Oracle, base: nat)
    ensures Workflow(cfg, o, base).outcome.Pass? ==>
              |Workflow(cfg, o, base).calls| > 0
              && Workflow(cfg, o, base).calls[|Workflow(cfg, o, base).calls| - 1] == Call.DeleteSession
  {
    WorkflowShape(cfg, o, base);
    var plan := Plan(cfg, o, base);
    if Workflow(cfg, o, base).outcome.Pass? {
      PlanTail(cfg, o, base, |plan| - 1);
    }
  }
}
