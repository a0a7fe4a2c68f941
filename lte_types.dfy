/** Value types shared by the LTE layers that the component carrier manager connects.
    Their C++ definitions (lte-enb-cmac-sap.h, eps-bearer.h, lte-mac-sap.h,
    ff-mac-common.h) are not part of this model; only the fields the manager reads,
    copies or forwards are kept, with the widths of their C++ types. */
module LteTypes {

  type uint8 = x: int | 0 <= x < 0x100
  type uint16 = x: int | 0 <= x < 0x1_0000
  type uint32 = x: int | 0 <= x < 0x1_0000_0000
  type uint64 = x: int | 0 <= x < 0x1_0000_0000_0000_0000

  /** An `LteMacSapUser*`: an RLC instance, or the manager's own MAC-facing forwarder.
      Only its identity matters to the manager. */
  datatype MacSapUser = MacSapUser(id: nat)

  /** An `LteMacSapProvider*` of one carrier's MAC. */
  datatype MacSapProvider = MacSapProvider(id: nat)

  /** An `LteUlCcmMacSapProvider*` of one carrier's MAC (its uplink report sink). */
  datatype UlCcmMacSapProvider = UlCcmMacSapProvider(id: nat)

  /** A `Ptr<Packet>`; the manager never looks inside one. */
  datatype Packet = Packet(id: nat)

  /** An `LteEnbRrcSapProvider::LogicalChannelConfig`, passed through unread. */
  datatype LogicalChannelConfig = LogicalChannelConfig(id: nat)

  /** The rate bounds of an EPS bearer, in bit/s. */
  datatype GbrQosInfo = GbrQosInfo(gbrDl: uint64, gbrUl: uint64, mbrDl: uint64, mbrUl: uint64)

  /** An EPS bearer. `isGbr` is the value `EpsBearer::IsGbr ()` gives for it. */
  datatype EpsBearer = EpsBearer(qci: uint8, isGbr: bool, gbrQosInfo: GbrQosInfo)

  /** `LteEnbCmacSapProvider::LcInfo`: one logical channel as a MAC sees it. */
  datatype LcInfo = LcInfo(
    rnti: uint16,
    lcId: uint8,
    lcGroup: uint8,
    qci: uint8,
    isGbr: bool,
    mbrUl: uint64,
    mbrDl: uint64,
    gbrUl: uint64,
    gbrDl: uint64)

  /** `LteMacSapProvider::TransmitPduParameters`. */
  datatype TransmitPduParameters = TransmitPduParameters(
    pdu: Packet,
    rnti: uint16,
    lcid: uint8,
    layer: uint8,
    harqProcessId: uint8,
    componentCarrierId: uint8)

  /** `LteMacSapProvider::ReportBufferStatusParameters`. */
  datatype ReportBufferStatusParameters = ReportBufferStatusParameters(
    rnti: uint16,
    lcid: uint8,
    txQueueSize: uint32,
    txQueueHolDelay: uint16,
    retxQueueSize: uint32,
    retxQueueHolDelay: uint16,
    statusPduSize: uint16)

  /** `MacCeListElement_s::MacCeType_e`. */
  datatype MacCeType = Bsr | Phr | Crnti

  /** `MacCeValue_u`: `bufferStatus` holds one quantized BSR id per logical channel group. */
  datatype MacCeValue = MacCeValue(phr: uint8, crnti: uint8, bufferStatus: seq<uint8>)

  /** `MacCeListElement_s`: a MAC control element received from a UE. */
  datatype MacCeListElement = MacCeListElement(rnti: uint16, macCeType: MacCeType, macCeValue: MacCeValue)
}
