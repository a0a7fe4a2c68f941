# eNB component carrier manager (ns-3 LTE), modelled in Dafny

In the ns-3 LTE module, the eNB component carrier manager (CCM) sits between one eNB RRC, the RLC instances of each attached UE, and the MAC of each component carrier. This project models four pieces of it:

- **The no-op manager** (`NoOpComponentCarrierManager`) keeps four per-UE tables keyed by RNTI:
  - the UE state;
  - the number of enabled carriers;
  - the MAC SAP user ("sink") of each logical channel, through which the MAC reaches the RLC;
  - the logical-channel descriptor of each data radio bearer.

  It handles the RRC requests that change these tables: add a UE, remove a UE, set up a data radio bearer, release a data radio bearer, and configure a signalling bearer. It also routes traffic:
  - transmit opportunities and received PDUs go from the MACs to the sink of the logical channel; the carrier they arrive on plays no part in the routing;
  - a PDU from an RLC goes to the MAC of the carrier its parameters name, which can be any registered carrier;
  - buffer status reports from an RLC always go to the MAC of carrier 0;
  - uplink buffer status reports are accepted only from carrier 0 and go to carrier 0's scheduler sink, after the first four entries are requantized.
- **The carrier registry of the base class** (`LteEnbComponentCarrierManager`) maps carrier ids to MAC endpoints and to uplink report sinks, and holds the declared carrier count.
- **The RRC-facing service** (`LteCcmRrcSapProvider`/`User`) defines the per-carrier `LcsConfig` record and the documented results of bearer setup and release. It also defines the forwarders that pass each call to the owner object.
- **The carrier-map builder of `CcHelper`** builds a dense map of component carriers with keys 0..n-1. Key 0 is the primary carrier. EARFCNs are spaced by the configured bandwidth in 16-bit arithmetic.

Files:

| file | module | contents |
|---|---|---|
| `outcomes.dfy` | `Outcomes`, `StdMap` | `Option`, `Result` (`Fatal` models `NS_ASSERT`/`NS_FATAL_ERROR` aborts); `std::map` insert and erase |
| `lte_types.dfy` | `LteTypes` | fixed-width integers; opaque SAP and packet ids; bearer, `LcInfo`, MAC SAP parameters, MAC control element |
| `ccm_rrc_sap.dfy` | `CcmRrcSap` | `LcsConfig`; the documented result shapes of setup and release |
| `enb_component_carrier_manager.dfy` | `EnbCcm` | the carrier registry class |
| `no_op_component_carrier_manager.dfy` | `NoOpCcm` | the per-UE tables as a value (`UeTables`), one specification function per RRC operation, lemmas relating them, and the manager class whose methods update the tables in place and are proved to equal those functions |
| `ccm_rrc_sap_forwarders.dfy` | `CcmRrcSapForwarders` | the `MemberLteCcmRrcSapProvider`/`User` forwarders |
| `cc_helper.dfy` | `CcHelper` | `CreateSingleCc`, `EquallySpacedCcs` and the equal-spacing lemmas |

The manager's invariant `NoOpCcm.TablesValid` has three parts:
- the four tables know the same UEs;
- every channel in the descriptor table also has a sink;
- each stored descriptor names its own RNTI and LCID.

Every state-changing method requires and ensures it. Under this invariant, some fatal checks in model/no-op-component-carrier-manager.cc can never fire, and the model states each as a proved `assert`:
- the three checks of `DoAddUe` at lines 252, 260 and 267;
- the two "RNTI not found" checks of `DoSetupDataRadioBearer` at lines 355 and 360;
- the "without Logical Channels enabled" check of `DoReleaseDataRadioBearer` at line 394.

`DoReleaseDataRadioBearer` has one more proved `assert`, `rnti in ueAttached`. It is not a check in the source: it guards the unchecked `find` whose result is dereferenced at lines 405-406. That method's last check, at line 410, is not modelled separately. It looks up the same channel that line 398 already found, and nothing between the two lines removes it from that map, so it cannot fail.

## Model

| member | source | states |
|---|---|---|
| StdMap.Insert | model/no-op-component-carrier-manager.cc:372-373 | `std::map::insert` adds a key only if it is absent; an existing entry keeps its value |
| StdMap.Erase | model/no-op-component-carrier-manager.cc:406-411 | `erase` removes exactly that key; all other entries keep their values |
| CcmRrcSap.CarrierIds | model/no-op-component-carrier-manager.cc:400-403 | the release result is the carrier ids 0..count-1, in order, as the header documents (model/lte-ccm-rrc-sap.h:110-118) |
| EnbCcm.LteEnbComponentCarrierManager.constructor | model/lte-enb-component-carrier-manager.cc:32-34 | both registry maps start empty; the carrier count is unset |
| EnbCcm.LteEnbComponentCarrierManager.SetComponentCarrierMacSapProviders | model/lte-enb-component-carrier-manager.cc:58-80 | fatal iff the id exceeds the declared count (id == count is accepted) or is already registered; otherwise adds exactly that entry and returns true; the other fields are unchanged |
| EnbCcm.LteEnbComponentCarrierManager.SetUlCcmMacSapProviders | model/lte-enb-component-carrier-manager.cc:82-98 | always returns true; a new id gets the sink; a duplicate keeps the first sink; nothing else changes |
| EnbCcm.LteEnbComponentCarrierManager.SetComponentCarrierNumber | model/lte-enb-component-carrier-manager.cc:100-105 | overwrites the count; the maps are unchanged |
| NoOpCcm.AddUe | model/no-op-component-carrier-manager.cc:228-278 | keeps the table invariant and the single-carrier policy; the state is recorded |
| NoOpCcm.BearerLcInfo | model/no-op-component-carrier-manager.cc:363-371 | the descriptor stored for a new data radio bearer carries the given rnti, lcid and lcGroup, the bearer's QCI and GBR flag, and all four of its MBR/GBR rates |
| NoOpCcm.CarrierLcInfo | model/no-op-component-carrier-manager.cc:307-327 | the descriptor handed to carrier ncc always has the same rnti, lcid, lcGroup and QCI; carrier 0 gets the bearer's full QoS; any other carrier gets a non-GBR descriptor with all four rates zero |
| NoOpCcm.ReleaseAllowed | model/no-op-component-carrier-manager.cc:389-398 | the three release checks: the UE has a carrier count, it has an LC map, and the channel is in that map; `DoReleaseDataRadioBearer` is fatal exactly when this fails |
| NoOpCcm.ReleaseAllowedUnderInvariant | model/no-op-component-carrier-manager.cc:391-398 | under the table invariant, a release is allowed iff the UE is known and the channel is in its LC map (the check at line 394 is redundant), and such a channel also has a sink |
| NoOpCcm.PerCarrierConfigs | model/no-op-component-carrier-manager.cc:300-333 | one entry per enabled carrier, entry i for carrier i; each carries the manager's own SAP user and the same rnti, lcid, lcGroup and QCI; entry 0 carries the bearer's full QoS; later entries are non-GBR with all four rates zero |
| NoOpCcm.SetupDataRadioBearer | model/no-op-component-carrier-manager.cc:353-378 | keeps the table invariant; leaves the state and carrier-count tables unchanged; afterwards releasing the channel is allowed |
| NoOpCcm.ReleaseDataRadioBearer | model/no-op-component-carrier-manager.cc:384-413 | keeps the invariant; afterwards the channel has neither sink nor descriptor, so a second release is not allowed; state and count are unchanged |
| NoOpCcm.ConfigureSignalBearer | model/no-op-component-carrier-manager.cc:416-435 | keeps the invariant; never touches the descriptor, state or count tables |
| NoOpCcm.RequantizedReport | model/no-op-component-carrier-manager.cc:441-464 | entries 0..3 of the buffer status become toId(toSize(entry)); every other field and entry is unchanged |
| NoOpCcm.AddUeOnUnseenUe | model/no-op-component-carrier-manager.cc:233-269 | an unseen UE gets its state, count 1, and empty sink and descriptor maps; no other UE changes |
| NoOpCcm.AddUeOnKnownUe | model/no-op-component-carrier-manager.cc:233-239 | a known UE only has its state overwritten; its count, sinks and descriptors stay as they were |
| NoOpCcm.AddUeTwice | model/no-op-component-carrier-manager.cc:228-278 | adding a UE twice equals adding it once with the second state |
| NoOpCcm.SetupStoresPrimaryCarrierInfo | model/no-op-component-carrier-manager.cc:304-313 | the stored descriptor is exactly the one carrier 0 gets in the returned vector |
| NoOpCcm.SetupOfNewChannel | model/no-op-component-carrier-manager.cc:362-374 | a new channel gets the bearer's descriptor, and the caller's sink unless one is already present; no other channel or UE changes |
| NoOpCcm.SetupOfExistingChannel | model/no-op-component-carrier-manager.cc:362-378 | a channel already in the descriptor table leaves the tables unchanged |
| NoOpCcm.ReleaseOnlyRemovesItsChannel | model/no-op-component-carrier-manager.cc:404-411 | release removes exactly that LCID from both maps of its UE; the remaining entries and other UEs are unchanged |
| NoOpCcm.ReleaseIdsAreSetupCarriers | model/lte-ccm-rrc-sap.h:89-118 | after a setup, the bearer can be released, and the carrier ids the release returns are, in order, the componentCarrierIds of the configurations the setup returned |
| NoOpCcm.ReleaseUndoesSetup | model/no-op-component-carrier-manager.cc:362-411 | setting up a channel that has no sink and then releasing it restores the tables exactly |
| NoOpCcm.SetupAfterRelease | model/no-op-component-carrier-manager.cc:384-411 | after a release, a second release is fatal; a new setup inserts the descriptor and sink again |
| NoOpCcm.SignalBearerSink | model/no-op-component-carrier-manager.cc:424-432 | the caller's sink is registered unless one exists; other sinks and UEs are unchanged |
| NoOpCcm.SingleCarrierResults | model/no-op-component-carrier-manager.cc:248 | under the one-carrier policy, setup returns one entry for carrier 0 with the full QoS, and release returns [0] |
| NoOpCcm.EndToEndScenario | model/no-op-component-carrier-manager.cc:228-413 | add UE 5, set up LCID 3, release it, set it up again: every step is allowed (UE 5 has a carrier count and LCID 3 is releasable after setup); one non-GBR config; the sink is stored; release restores the post-add tables; the second setup repeats the first |
| NoOpCcm.RequantizationIsIdentityForExactTable | model/no-op-component-carrier-manager.cc:451-464 | if every id survives the table round trip, the forwarded report equals the received one |
| NoOpCcm.NoOpComponentCarrierManager.constructor | model/no-op-component-carrier-manager.cc:77-85 | all four tables start empty and satisfy the invariant |
| NoOpCcm.NoOpComponentCarrierManager.SetLteMacSapUser | model/no-op-component-carrier-manager.cc:122-126 | replaces the own SAP user; the tables are unchanged |
| NoOpCcm.NoOpComponentCarrierManager.DoTransmitPdu | model/no-op-component-carrier-manager.cc:177-184 | fatal iff the named carrier is not registered; otherwise the PDU goes unchanged to that carrier's MAC |
| NoOpCcm.NoOpComponentCarrierManager.DoReportBufferStatus | model/no-op-component-carrier-manager.cc:187-193 | fatal iff carrier 0 is not registered; otherwise the report goes unchanged to carrier 0's MAC |
| NoOpCcm.NoOpComponentCarrierManager.DoNotifyTxOpportunity | model/no-op-component-carrier-manager.cc:196-206 | fatal iff the UE or the channel is unknown; otherwise all six arguments go to that channel's sink |
| NoOpCcm.NoOpComponentCarrierManager.DoReceivePdu | model/no-op-component-carrier-manager.cc:209-219 | fatal iff the UE is unknown; a PDU for an unknown channel of a known UE is dropped; otherwise it goes to the channel's sink |
| NoOpCcm.NoOpComponentCarrierManager.DoAddUe | model/no-op-component-carrier-manager.cc:228-278 | the new tables are `AddUe` of the old ones; the invariant is kept |
| NoOpCcm.NoOpComponentCarrierManager.DoRemoveUe | model/no-op-component-carrier-manager.cc:281-291 | succeeds iff the UE is in both the state and count tables; nothing is erased |
| NoOpCcm.NoOpComponentCarrierManager.DoSetupDataRadioBearer | model/no-op-component-carrier-manager.cc:294-381 | fatal iff the UE has no count entry, leaving the tables unchanged; otherwise returns `PerCarrierConfigs` for the UE's count and updates the tables as `SetupDataRadioBearer` |
| NoOpCcm.NoOpComponentCarrierManager.DoReleaseDataRadioBearer | model/no-op-component-carrier-manager.cc:384-413 | fatal iff the UE has no count entry or the channel is not in its descriptor table; otherwise returns the carrier ids 0..count-1 and updates the tables as `ReleaseDataRadioBearer` |
| NoOpCcm.NoOpComponentCarrierManager.DoConfigureSignalBearer | model/no-op-component-carrier-manager.cc:416-435 | fatal iff the UE has no sink map; otherwise returns the manager's own SAP user and updates the tables as `ConfigureSignalBearer` |
| NoOpCcm.NoOpComponentCarrierManager.DoUlReceiveMacCe | model/no-op-component-carrier-manager.cc:438-476 | fatal iff the carrier is not 0, the element is not a BSR, the buffer status has fewer than 4 entries, or carrier 0 has no uplink sink; otherwise forwards the requantized report to carrier 0's sink |
| CcmRrcSapForwarders.MemberLteCcmRrcSapProvider.constructor | model/lte-ccm-rrc-sap.h:212-216 | stores the owner |
| CcmRrcSapForwarders.MemberLteCcmRrcSapProvider.AddUe | model/lte-ccm-rrc-sap.h:218-222 | has the owner's `DoAddUe` contract, with arguments passed unchanged |
| CcmRrcSapForwarders.MemberLteCcmRrcSapProvider.RemoveUe | model/lte-ccm-rrc-sap.h:224-228 | has the owner's `DoRemoveUe` contract and returns its result |
| CcmRrcSapForwarders.MemberLteCcmRrcSapProvider.SetupDataRadioBearer | model/lte-ccm-rrc-sap.h:230-234 | has the owner's `DoSetupDataRadioBearer` contract and returns its result |
| CcmRrcSapForwarders.MemberLteCcmRrcSapProvider.ReleaseDataRadioBearer | model/lte-ccm-rrc-sap.h:236-240 | has the owner's `DoReleaseDataRadioBearer` contract and returns its result |
| CcmRrcSapForwarders.MemberLteCcmRrcSapProvider.ConfigureSignalBearer | model/lte-ccm-rrc-sap.h:242-246 | has the owner's `DoConfigureSignalBearer` contract and returns its result |
| CcmRrcSapForwarders.MemberLteCcmRrcSapUser.constructor | model/lte-ccm-rrc-sap.h:265-269 | stores the owner |
| CcmRrcSapForwarders.MemberLteCcmRrcSapUser.AddLcs | model/lte-ccm-rrc-sap.h:271-275 | the owner receives exactly one `DoAddLcs` with the same configuration vector |
| CcmRrcSapForwarders.MemberLteCcmRrcSapUser.ReleaseLcs | model/lte-ccm-rrc-sap.h:277-281 | the owner receives exactly one `DoReleaseLcs` with the same rnti and lcid |
| CcHelper.CreateSingleCc | helper/cc-helper.cc:140-169 | bandwidths and the primary flag are as given; the helper's configured frequency, not the parameter, chooses between the given EARFCN and the 16-bit sum of the carrier default and the given EARFCN |
| CcHelper.SpacedEarfcn | helper/cc-helper.cc:125-126 | carrier i's EARFCN is (configured + i·bandwidth) mod 2^16, or (default + i·bandwidth) mod 2^16 when the configured value is 0 |
| CcHelper.SpacedCarrier | helper/cc-helper.cc:124-131 | carrier i is primary iff i == 0 and has the configured bandwidths |
| CcHelper.EquallySpacedCcs | helper/cc-helper.cc:116-138 | for valid attributes, the keys are exactly 0..n-1 and carrier k is `SpacedCarrier(k)`: exactly key 0 is primary, all carriers have the configured bandwidths, and the EARFCNs are spaced as above |
| CcHelper.NeighbouringCarriersAreOneBandwidthApart | helper/cc-helper.cc:125-126 | carrier i+1's UL and DL EARFCNs are carrier i's plus one bandwidth, modulo 2^16 |
| CcHelper.PrimaryCarrierOnConfiguredFrequency | helper/cc-helper.cc:144-156 | with nonzero configured frequencies, the primary carrier sits exactly on them |
| CcHelper.DefaultConfigGivesOnePrimaryCarrier | helper/cc-helper.cc:58-83 | the attribute defaults are in range; they give one primary carrier of 25 RBs each way on the carrier object's default EARFCNs (mod 2^16) |

## Left out

- `DoReportUeMeas` (model/no-op-component-carrier-manager.cc:165-169) and `DoNotifyHarqDeliveryFailure` (:222-225): they only log.
- `NoOpEnbCcmMacSapUser` (:41-72) and the forwarders of model/lte-ul-ccm-mac-sap.h: one-line forwarders. The model calls the manager's `Do*` methods directly.
- `CcHelper::DoCreateSingleCc` (helper/cc-helper.cc:110-113): a one-line forwarder to `CreateSingleCc`.
- The BSR quantization table `BufferSizeLevelBsr` (the buffer-size levels of 3GPP TS 36.321, section 6.1.3.1) is not part of this model:
  - the two conversions are constant function fields of the manager;
  - the id round trip appears only as the hypothesis of `RequantizationIsIdentityForExactTable`.
- `EpsBearer::IsGbr` is not part of this model; it is a boolean field of the bearer.
- The default EARFCNs of a new `ComponentCarrierEnb` are not part of this model; they are the `CarrierDefaults` parameter.
  - The carrier's own setters are not modelled, including any bandwidth validation.
  - Bandwidths are kept as `uint16`.
- `NS_ASSERT` is compiled out of optimized builds. The model treats it as always active, as in debug builds, and both it and `NS_FATAL_ERROR` become `Fatal`.
  - On `Fatal` the model changes nothing. The program aborts, so any partial update is unobservable.
- Inheritance: the manager holds the registry as a field instead of deriving from it.
- The RRC side of `MemberLteCcmRrcSapUser` (`DoAddLcs`/`DoReleaseLcs` of the eNB RRC) is not part of this model. A recording stand-in (`RrcLcsOwner`) takes its place.
- `CcHelper.EquallySpacedCcs`: it requires the attribute checkers' ranges (1..2 carriers, bandwidths ≤ 100). With those ranges, the `uint8` truncation of the map key can never apply, so the model does not represent it.
- Routing operations return the outbound call as a `Forward` value; log output is not modelled.
- `m_ueState` keeps whatever state value the RRC passes (the value is opaque). The commented-out assertion at line 236 is not modelled.
- Setting up a data radio bearer for a channel that already has a signalling sink keeps the old sink (`std::map::insert`). A later release then erases that sink. `SetupOfNewChannel` states this as it is; `ReleaseUndoesSetup` therefore assumes the channel has no sink.
- Not modelled:
  - logging, `TypeId`/attribute registration, `DoDispose` and SAP object allocation/deletion;
  - packet contents (`Packet` is an opaque id);
  - helper/lte-helper.cc, the example script, the component-carrier-selection (CCS) algorithm files and the UE-side CCM declarations.
