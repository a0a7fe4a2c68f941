/** The carrier registry of the eNB component carrier manager base class
    (model/lte-enb-component-carrier-manager.cc): the per-carrier MAC endpoints that
    the scenario helper registers at setup time, and the declared carrier count. */
module EnbCcm {
  import opened Outcomes
  import opened StdMap
  import opened LteTypes

  class LteEnbComponentCarrierManager {
    /** `m_CcMacSapProvider`: carrier id to that carrier's MAC SAP provider. */
    var ccMacSapProvider: map<uint16, MacSapProvider>
    /** `m_ulCcmMacSapProviderMap`: carrier id to that carrier's uplink report sink. */
    var ulCcmMacSapProviderMap: map<uint8, UlCcmMacSapProvider>
    /** `m_noOfComponentCarriers`; `None` while SetComponentCarrierNumber was never
        called, since the constructor leaves the field uninitialised. */
    var noOfComponentCarriers: Option<uint16>

    constructor ()
      ensures ccMacSapProvider == map[] && ulCcmMacSapProviderMap == map[]
      ensures noOfComponentCarriers == None
    {
      ccMacSapProvider := map[];
      ulCcmMacSapProviderMap := map[];
      noOfComponentCarriers := None;
    }

    /** Registers the MAC endpoint of one carrier. The id may be at most the declared
        count (the check is `>`, so id == count is accepted) and may not be taken. */
    method SetComponentCarrierMacSapProviders(componentCarrierId: uint16, sap: MacSapProvider)
      returns (r: Result<bool>)
      requires noOfComponentCarriers.Some?
      modifies this
      ensures r.Fatal? <==>
                componentCarrierId > old(noOfComponentCarriers).value || componentCarrierId in old(ccMacSapProvider)
      ensures r.Ok? ==> r.value && ccMacSapProvider == old(ccMacSapProvider)[componentCarrierId := sap]
      ensures r.Fatal? ==> ccMacSapProvider == old(ccMacSapProvider)
      ensures ulCcmMacSapProviderMap == old(ulCcmMacSapProviderMap)
      ensures noOfComponentCarriers == old(noOfComponentCarriers)
    {
      var found := componentCarrierId in ccMacSapProvider;
      if componentCarrierId > noOfComponentCarriers.value {
        return Fatal("Inconsistent componentCarrierId or you didn't call SetComponentCarrierNumber before calling this method");
      }
      if found {
        return Fatal("Tried to allocated an existing componentCarrierId");
      }
      ccMacSapProvider := ccMacSapProvider[componentCarrierId := sap];
      r := Ok(true);
    }

    /** Registers the uplink report sink of one carrier. A duplicate id keeps the first
        sink; the call always reports success. */
    method SetUlCcmMacSapProviders(componentCarrierId: uint8, sap: UlCcmMacSapProvider)
      returns (res: bool)
      modifies this
      ensures res
      ensures componentCarrierId in old(ulCcmMacSapProviderMap) ==> ulCcmMacSapProviderMap == old(ulCcmMacSapProviderMap)
      ensures componentCarrierId !in old(ulCcmMacSapProviderMap) ==>
                ulCcmMacSapProviderMap == old(ulCcmMacSapProviderMap)[componentCarrierId := sap]
      ensures ccMacSapProvider == old(ccMacSapProvider)
      ensures noOfComponentCarriers == old(noOfComponentCarriers)
    {
      if componentCarrierId !in ulCcmMacSapProviderMap {
        ulCcmMacSapProviderMap := Insert(ulCcmMacSapProviderMap, componentCarrierId, sap);
      }
      res := true;
    }

    /** Declares the carrier count, overwriting any earlier value without checks. */
    method SetComponentCarrierNumber(no: uint16)
      modifies this
      ensures noOfComponentCarriers == Some(no)
      ensures ccMacSapProvider == old(ccMacSapProvider)
      ensures ulCcmMacSapProviderMap == old(ulCcmMacSapProviderMap)
    {
      noOfComponentCarriers := Some(no);
    }
  }
}
