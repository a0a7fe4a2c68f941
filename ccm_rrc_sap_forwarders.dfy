/** The owner-forwarding classes of the RRC-facing service (model/lte-ccm-rrc-sap.h):
    `MemberLteCcmRrcSapProvider`, through which the RRC calls the manager, and
    `MemberLteCcmRrcSapUser`, through which the manager calls the RRC. Each method
    passes its arguments unchanged to the owner's `Do*` method and returns the owner's
    result unchanged, so each carries the owner method's contract. */
module CcmRrcSapForwarders {
  import opened Outcomes
  import opened LteTypes
  import opened CcmRrcSap
  import opened NoOpCcm

  /** `MemberLteCcmRrcSapProvider<NoOpComponentCarrierManager>`. */
  class MemberLteCcmRrcSapProvider {
    const owner: NoOpComponentCarrierManager

    constructor (owner: NoOpComponentCarrierManager)
      ensures this.owner == owner
    {
      this.owner := owner;
    }

    method AddUe(rnti: uint16, state: uint8)
      requires owner.Valid()
      modifies owner
      ensures owner.Valid() && owner.Tables() == NoOpCcm.AddUe(old(owner.Tables()), rnti, state)
      ensures owner.ccmMacSapUser == old(owner.ccmMacSapUser)
    {
      owner.DoAddUe(rnti, state);
    }

    method RemoveUe(rnti: uint16) returns (r: Result<()>)
      ensures r.Ok? <==> rnti in owner.ueState && rnti in owner.enabledComponentCarrier
    {
      r := owner.DoRemoveUe(rnti);
    }

    method SetupDataRadioBearer(bearer: EpsBearer, bearerId: uint8, rnti: uint16, lcid: uint8,
                                lcGroup: uint8, msu: MacSapUser) returns (r: Result<seq<LcsConfig>>)
      requires owner.Valid()
      modifies owner
      ensures owner.Valid() && owner.ccmMacSapUser == old(owner.ccmMacSapUser)
      ensures r.Fatal? <==> rnti !in old(owner.enabledComponentCarrier)
      ensures r.Fatal? ==> owner.Tables() == old(owner.Tables())
      ensures r.Ok? ==>
                && r.value == PerCarrierConfigs(old(owner.enabledComponentCarrier)[rnti], bearer, rnti, lcid,
                                                lcGroup, owner.ccmMacSapUser)
                && owner.Tables() == NoOpCcm.SetupDataRadioBearer(old(owner.Tables()), bearer, rnti, lcid, lcGroup, msu)
    {
      r := owner.DoSetupDataRadioBearer(bearer, bearerId, rnti, lcid, lcGroup, msu);
    }

    method ReleaseDataRadioBearer(rnti: uint16, lcid: uint8) returns (r: Result<seq<uint16>>)
      requires owner.Valid()
      modifies owner
      ensures owner.Valid() && owner.ccmMacSapUser == old(owner.ccmMacSapUser)
      ensures r.Fatal? <==> !ReleaseAllowed(old(owner.Tables()), rnti, lcid)
      ensures r.Fatal? ==> owner.Tables() == old(owner.Tables())
      ensures r.Ok? ==>
                && r.value == CarrierIds(old(owner.enabledComponentCarrier)[rnti])
                && owner.Tables() == NoOpCcm.ReleaseDataRadioBearer(old(owner.Tables()), rnti, lcid)
    {
      r := owner.DoReleaseDataRadioBearer(rnti, lcid);
    }

    method ConfigureSignalBearer(lcinfo: LcInfo, rlcMacSapUser: MacSapUser) returns (r: Result<MacSapUser>)
      requires owner.Valid()
      modifies owner
      ensures owner.Valid() && owner.ccmMacSapUser == old(owner.ccmMacSapUser)
      ensures r.Fatal? <==> lcinfo.rnti !in old(owner.ueAttached)
      ensures r.Fatal? ==> owner.Tables() == old(owner.Tables())
      ensures r.Ok? ==>
                && r.value == owner.ccmMacSapUser
                && owner.Tables() == NoOpCcm.ConfigureSignalBearer(old(owner.Tables()), lcinfo, rlcMacSapUser)
    {
      r := owner.DoConfigureSignalBearer(lcinfo, rlcMacSapUser);
    }
  }

  /** A request the manager makes of the RRC's own logical-channel bookkeeping. */
  datatype LcsRequest =
    | AddLcs(lcConfig: seq<LogicalChannelConfig>)
    | ReleaseLcs(rnti: uint16, lcid: uint8)

  /** The owner of an `MemberLteCcmRrcSapUser`, the eNB RRC. Its `DoAddLcs` and
      `DoReleaseLcs` are outside this component; this stand-in records each request
      it receives, which is all the forwarder's contract needs. */
  class RrcLcsOwner {
    var received: seq<LcsRequest>

    constructor ()
      ensures received == []
    {
      received := [];
    }

    method DoAddLcs(lcConfig: seq<LogicalChannelConfig>)
      modifies this
      ensures received == old(received) + [LcsRequest.AddLcs(lcConfig)]
    {
      received := received + [LcsRequest.AddLcs(lcConfig)];
    }

    method DoReleaseLcs(rnti: uint16, lcid: uint8)
      modifies this
      ensures received == old(received) + [LcsRequest.ReleaseLcs(rnti, lcid)]
    {
      received := received + [LcsRequest.ReleaseLcs(rnti, lcid)];
    }
  }

  /** `MemberLteCcmRrcSapUser<C>`. */
  class MemberLteCcmRrcSapUser {
    const owner: RrcLcsOwner

    constructor (owner: RrcLcsOwner)
      ensures this.owner == owner
    {
      this.owner := owner;
    }

    method AddLcs(lcConfig: seq<LogicalChannelConfig>)
      modifies owner
      ensures owner.received == old(owner.received) + [LcsRequest.AddLcs(lcConfig)]
    {
      owner.DoAddLcs(lcConfig);
    }

    method ReleaseLcs(rnti: uint16, lcid: uint8)
      modifies owner
      ensures owner.received == old(owner.received) + [LcsRequest.ReleaseLcs(rnti, lcid)]
    {
      owner.DoReleaseLcs(rnti, lcid);
    }
  }
}
