/** The RRC-facing service of the component carrier manager (model/lte-ccm-rrc-sap.h):
    the per-carrier configuration record returned by bearer setup, and the results the
    interface documents for SetupDataRadioBearer and ReleaseDataRadioBearer. */
module CcmRrcSap {
  import opened LteTypes

  /** `LteCcmRrcSapProvider::LcsConfig`: the configuration of one logical channel on one
      carrier, with the MAC SAP user that carrier's MAC must deliver to. */
  datatype LcsConfig = LcsConfig(componentCarrierId: uint16, lc: LcInfo, msu: MacSapUser)

  /** The documented result of SetupDataRadioBearer: one configuration per enabled
      component carrier, each for a different carrier, carriers in id order. */
  predicate IsPerCarrierSetup(res: seq<LcsConfig>, enabledCarriers: nat) {
    && |res| == enabledCarriers
    && forall i :: 0 <= i < |res| ==> res[i].componentCarrierId == i
  }

  /** The documented result of ReleaseDataRadioBearer: the ids of the carriers on which
      the bearer was enabled, in id order. */
  predicate IsEnabledCarrierIds(ids: seq<uint16>, enabledCarriers: nat) {
    && |ids| == enabledCarriers
    && forall i :: 0 <= i < |ids| ==> ids[i] == i
  }

  /** The carrier ids 0 .. count-1, as DoReleaseDataRadioBearer builds them. */
  function CarrierIds(count: uint8): (ids: seq<uint16>)
    ensures IsEnabledCarrierIds(ids, count)
  {
    seq(count, i requires 0 <= i < count => i)
  }
}
