/** The no-op eNB component carrier manager (model/no-op-component-carrier-manager.cc).

    It keeps four per-UE tables, keyed by RNTI, and routes the calls between one RRC,
    the RLC instances of each UE and the MACs of the carriers. The tables are modelled
    twice: as the value `UeTables` with one function per RRC operation (used by the
    lemmas), and as the fields of the class `NoOpComponentCarrierManager`, whose
    methods update them in place and are proved to agree with those functions.

    Outbound calls (to an RLC's MAC SAP user, a carrier's MAC SAP provider or a
    carrier's uplink report sink) are returned as `Forward` values. */
module NoOpCcm {
  import opened Outcomes
  import opened StdMap
  import opened LteTypes
  import opened CcmRrcSap
  import opened EnbCcm

  /** `m_ueState`, `m_enabledComponentCarrier`, `m_ueAttached` and
      `m_rlcLcInstantiated` (model/lte-enb-component-carrier-manager.h:158-166). */
  datatype UeTables = UeTables(
    ueState: map<uint16, uint8>,
    enabledComponentCarrier: map<uint16, uint8>,
    ueAttached: map<uint16, map<uint8, MacSapUser>>,
    rlcLcInstantiated: map<uint16, map<uint8, LcInfo>>)

  const EmptyTables := UeTables(map[], map[], map[], map[])

  /** The invariant the manager keeps: the four tables know the same UEs, every
      logical channel of the RLC-facing table also has a delivery sink, and each
      stored LcInfo describes its own key. */
  predicate TablesValid(t: UeTables) {
    && t.enabledComponentCarrier.Keys == t.ueState.Keys
    && t.ueAttached.Keys == t.ueState.Keys
    && t.rlcLcInstantiated.Keys == t.ueState.Keys
    && (forall rnti :: rnti in t.rlcLcInstantiated ==> t.rlcLcInstantiated[rnti].Keys <= t.ueAttached[rnti].Keys)
    && (forall rnti, lcid :: rnti in t.rlcLcInstantiated && lcid in t.rlcLcInstantiated[rnti] ==>
          t.rlcLcInstantiated[rnti][lcid].rnti == rnti && t.rlcLcInstantiated[rnti][lcid].lcId == lcid)
  }

  /** The carrier policy of the no-op manager: every known UE has exactly one
      enabled carrier, the primary one. */
  predicate OnlyPrimaryEnabled(t: UeTables) {
    forall rnti :: rnti in t.enabledComponentCarrier ==> t.enabledComponentCarrier[rnti] == 1
  }

  /** An outbound call the manager makes, with its target and its arguments. */
  datatype Forward =
    | NotifyTxOpportunity(sink: MacSapUser, bytes: uint32, layer: uint8, harqId: uint8,
                          componentCarrierId: uint8, rnti: uint16, lcid: uint8)
    | ReceivePdu(sink: MacSapUser, p: Packet, rnti: uint16, lcid: uint8)
    | TransmitPdu(provider: MacSapProvider, pduParams: TransmitPduParameters)
    | ReportBufferStatus(provider: MacSapProvider, bufferParams: ReportBufferStatusParameters)
    | ReportMacCeToScheduler(ulProvider: UlCcmMacSapProvider, bsr: MacCeListElement)

  // ---------------------------------------------------------------------------
  // The RRC-facing operations on the tables
  // ---------------------------------------------------------------------------

  /** DoAddUe: an unseen RNTI gets its state, one enabled carrier and empty sink and
      LC maps; a known RNTI only has its state overwritten. */
  function AddUe(t: UeTables, rnti: uint16, state: uint8): (r: UeTables)
    requires TablesValid(t)
    ensures TablesValid(r)
    ensures r.ueState == t.ueState[rnti := state]
    ensures OnlyPrimaryEnabled(t) ==> OnlyPrimaryEnabled(r)
  {
    if rnti !in t.ueState then
      UeTables(t.ueState[rnti := state],
               t.enabledComponentCarrier[rnti := 1],
               t.ueAttached[rnti := map[]],
               t.rlcLcInstantiated[rnti := map[]])
    else
      t.(ueState := t.ueState[rnti := state])
  }

  /** The LcInfo that DoSetupDataRadioBearer stores in the RLC-facing table: the
      bearer's full QoS. */
  function BearerLcInfo(bearer: EpsBearer, rnti: uint16, lcid: uint8, lcGroup: uint8): (lc: LcInfo)
    ensures lc.rnti == rnti && lc.lcId == lcid && lc.lcGroup == lcGroup
    ensures lc.qci == bearer.qci && lc.isGbr == bearer.isGbr
    ensures lc.mbrUl == bearer.gbrQosInfo.mbrUl && lc.mbrDl == bearer.gbrQosInfo.mbrDl
    ensures lc.gbrUl == bearer.gbrQosInfo.gbrUl && lc.gbrDl == bearer.gbrQosInfo.gbrDl
  {
    LcInfo(rnti, lcid, lcGroup, bearer.qci, bearer.isGbr,
           bearer.gbrQosInfo.mbrUl, bearer.gbrQosInfo.mbrDl,
           bearer.gbrQosInfo.gbrUl, bearer.gbrQosInfo.gbrDl)
  }

  /** The LcInfo handed to carrier `ncc`: carrier 0 gets the bearer's QoS, every other
      carrier a best-effort copy with the GBR flag and all four rates zero. */
  function CarrierLcInfo(ncc: nat, bearer: EpsBearer, rnti: uint16, lcid: uint8, lcGroup: uint8): (lc: LcInfo)
    ensures lc.rnti == rnti && lc.lcId == lcid && lc.lcGroup == lcGroup && lc.qci == bearer.qci
    ensures ncc == 0 ==> lc == BearerLcInfo(bearer, rnti, lcid, lcGroup)
    ensures ncc != 0 ==> !lc.isGbr && lc.mbrUl == 0 && lc.mbrDl == 0 && lc.gbrUl == 0 && lc.gbrDl == 0
  {
    if ncc == 0 then BearerLcInfo(bearer, rnti, lcid, lcGroup)
    else LcInfo(rnti, lcid, lcGroup, bearer.qci, false, 0, 0, 0, 0)
  }

  /** The vector DoSetupDataRadioBearer returns for a UE with `count` enabled carriers;
      every entry points the MAC at the manager's own SAP user `ccmMsu`. */
  function PerCarrierConfigs(count: uint8, bearer: EpsBearer, rnti: uint16, lcid: uint8, lcGroup: uint8,
                             ccmMsu: MacSapUser): (res: seq<LcsConfig>)
    ensures IsPerCarrierSetup(res, count)
    ensures forall i :: 0 <= i < |res| ==>
              && res[i].msu == ccmMsu
              && res[i].lc.rnti == rnti && res[i].lc.lcId == lcid
              && res[i].lc.lcGroup == lcGroup && res[i].lc.qci == bearer.qci
    ensures count > 0 ==> res[0].lc == BearerLcInfo(bearer, rnti, lcid, lcGroup)
    ensures forall i :: 0 < i < |res| ==>
              && !res[i].lc.isGbr
              && res[i].lc.mbrUl == 0 && res[i].lc.mbrDl == 0
              && res[i].lc.gbrUl == 0 && res[i].lc.gbrDl == 0
  {
    seq(count, ncc requires 0 <= ncc < count =>
      LcsConfig(ncc, CarrierLcInfo(ncc, bearer, rnti, lcid, lcGroup), ccmMsu))
  }

  /** DoSetupDataRadioBearer on the tables: a new logical channel gets the bearer's
      LcInfo and, unless it already has one, the caller's sink; a logical channel
      already in the RLC-facing table leaves both tables as they are. */
  function SetupDataRadioBearer(t: UeTables, bearer: EpsBearer, rnti: uint16, lcid: uint8, lcGroup: uint8,
                                msu: MacSapUser): (r: UeTables)
    requires TablesValid(t) && rnti in t.enabledComponentCarrier
    ensures TablesValid(r)
    ensures r.ueState == t.ueState && r.enabledComponentCarrier == t.enabledComponentCarrier
    ensures ReleaseAllowed(r, rnti, lcid)
  {
    if lcid !in t.rlcLcInstantiated[rnti] then
      t.(rlcLcInstantiated := t.rlcLcInstantiated[rnti := Insert(t.rlcLcInstantiated[rnti], lcid, BearerLcInfo(bearer, rnti, lcid, lcGroup))],
         ueAttached := t.ueAttached[rnti := Insert(t.ueAttached[rnti], lcid, msu)])
    else
      t
  }

  /** The checks of DoReleaseDataRadioBearer: the UE has enabled carriers and the
      logical channel is in its RLC-facing table. */
  predicate ReleaseAllowed(t: UeTables, rnti: uint16, lcid: uint8) {
    && rnti in t.enabledComponentCarrier
    && rnti in t.rlcLcInstantiated
    && lcid in t.rlcLcInstantiated[rnti]
  }

  /** DoReleaseDataRadioBearer on the tables: the logical channel leaves both the sink
      map and the RLC-facing table of its UE. */
  function ReleaseDataRadioBearer(t: UeTables, rnti: uint16, lcid: uint8): (r: UeTables)
    requires TablesValid(t) && ReleaseAllowed(t, rnti, lcid)
    ensures TablesValid(r)
    ensures r.ueState == t.ueState && r.enabledComponentCarrier == t.enabledComponentCarrier
    ensures !ReleaseAllowed(r, rnti, lcid) && lcid !in r.ueAttached[rnti]
  {
    t.(ueAttached := t.ueAttached[rnti := Erase(t.ueAttached[rnti], lcid)],
       rlcLcInstantiated := t.rlcLcInstantiated[rnti := Erase(t.rlcLcInstantiated[rnti], lcid)])
  }

  /** DoConfigureSignalBearer on the tables: the sink is added for the channel unless
      one is already there; the RLC-facing table is never touched. */
  function ConfigureSignalBearer(t: UeTables, lcinfo: LcInfo, msu: MacSapUser): (r: UeTables)
    requires TablesValid(t) && lcinfo.rnti in t.ueAttached
    ensures TablesValid(r)
    ensures r.ueState == t.ueState && r.enabledComponentCarrier == t.enabledComponentCarrier
    ensures r.rlcLcInstantiated == t.rlcLcInstantiated
  {
    t.(ueAttached := t.ueAttached[lcinfo.rnti := Insert(t.ueAttached[lcinfo.rnti], lcinfo.lcId, msu)])
  }

  /** The uplink report DoUlReceiveMacCe forwards: entries 0..3 of the buffer status
      decompressed to a byte count and compressed back, everything else as received. */
  function RequantizedReport(bsr: MacCeListElement, toSize: uint8 -> uint32, toId: uint32 -> uint8)
    : (r: MacCeListElement)
    requires |bsr.macCeValue.bufferStatus| >= 4
    ensures r.rnti == bsr.rnti && r.macCeType == bsr.macCeType
    ensures r.macCeValue.phr == bsr.macCeValue.phr && r.macCeValue.crnti == bsr.macCeValue.crnti
    ensures |r.macCeValue.bufferStatus| == |bsr.macCeValue.bufferStatus|
    ensures forall i :: 0 <= i < 4 ==>
              r.macCeValue.bufferStatus[i] == toId(toSize(bsr.macCeValue.bufferStatus[i]))
    ensures forall i :: 4 <= i < |bsr.macCeValue.bufferStatus| ==>
              r.macCeValue.bufferStatus[i] == bsr.macCeValue.bufferStatus[i]
  {
    var bs := bsr.macCeValue.bufferStatus;
    bsr.(macCeValue := bsr.macCeValue.(bufferStatus :=
      seq(|bs|, i requires 0 <= i < |bs| => if i < 4 then toId(toSize(bs[i])) else bs[i])))
  }

  // ---------------------------------------------------------------------------
  // Properties of the RRC-facing operations
  // ---------------------------------------------------------------------------

  /** AddUe on an unseen UE creates its whole record and touches no other UE. */
  lemma AddUeOnUnseenUe(t: UeTables, rnti: uint16, state: uint8)
    requires TablesValid(t) && rnti !in t.ueState
    ensures var r := AddUe(t, rnti, state);
      && r.ueState[rnti] == state && r.enabledComponentCarrier[rnti] == 1
      && r.ueAttached[rnti] == map[] && r.rlcLcInstantiated[rnti] == map[]
      && (forall u :: u in t.ueState ==>
            && r.enabledComponentCarrier[u] == t.enabledComponentCarrier[u]
            && r.ueAttached[u] == t.ueAttached[u]
            && r.rlcLcInstantiated[u] == t.rlcLcInstantiated[u])
  {
  }

  /** AddUe on a known UE only overwrites its state: its carrier count, sinks and
      logical channels are left as they were. */
  lemma AddUeOnKnownUe(t: UeTables, rnti: uint16, state: uint8)
    requires TablesValid(t) && rnti in t.ueState
    ensures var r := AddUe(t, rnti, state);
      && r.enabledComponentCarrier == t.enabledComponentCarrier
      && r.ueAttached == t.ueAttached
      && r.rlcLcInstantiated == t.rlcLcInstantiated
  {
  }

  /** Adding the same UE twice is the same as adding it once with the second state. */
  lemma AddUeTwice(t: UeTables, rnti: uint16, s1: uint8, s2: uint8)
    requires TablesValid(t)
    ensures AddUe(AddUe(t, rnti, s1), rnti, s2) == AddUe(t, rnti, s2)
  {
    var t1 := AddUe(t, rnti, s1);
    assert rnti in t1.ueState;
    assert t1.ueState[rnti := s2] == t.ueState[rnti := s2];
  }

  /** The per-carrier LC configuration and the descriptor SetupDataRadioBearer stores
      agree: the stored descriptor is the one carrier 0 receives. */
  lemma SetupStoresPrimaryCarrierInfo(t: UeTables, bearer: EpsBearer, rnti: uint16, lcid: uint8,
                                      lcGroup: uint8, msu: MacSapUser, ccmMsu: MacSapUser)
    requires TablesValid(t) && rnti in t.enabledComponentCarrier && t.enabledComponentCarrier[rnti] > 0
    requires lcid !in t.rlcLcInstantiated[rnti]
    ensures var r := SetupDataRadioBearer(t, bearer, rnti, lcid, lcGroup, msu);
      r.rlcLcInstantiated[rnti][lcid]
        == PerCarrierConfigs(t.enabledComponentCarrier[rnti], bearer, rnti, lcid, lcGroup, ccmMsu)[0].lc
  {
  }

  /** SetupDataRadioBearer of a new logical channel adds exactly that channel: its
      descriptor, and the caller's sink unless a sink was already registered for it. */
  lemma SetupOfNewChannel(t: UeTables, bearer: EpsBearer, rnti: uint16, lcid: uint8, lcGroup: uint8,
                          msu: MacSapUser)
    requires TablesValid(t) && rnti in t.enabledComponentCarrier && lcid !in t.rlcLcInstantiated[rnti]
    ensures var r := SetupDataRadioBearer(t, bearer, rnti, lcid, lcGroup, msu);
      && r.rlcLcInstantiated[rnti] == t.rlcLcInstantiated[rnti][lcid := BearerLcInfo(bearer, rnti, lcid, lcGroup)]
      && r.ueAttached[rnti][lcid] == (if lcid in t.ueAttached[rnti] then t.ueAttached[rnti][lcid] else msu)
      && r.ueAttached[rnti].Keys == t.ueAttached[rnti].Keys + {lcid}
      && (forall l :: l in t.ueAttached[rnti] ==> r.ueAttached[rnti][l] == t.ueAttached[rnti][l])
      && (forall u :: u in t.ueState && u != rnti ==>
            r.ueAttached[u] == t.ueAttached[u] && r.rlcLcInstantiated[u] == t.rlcLcInstantiated[u])
  {
  }

  /** SetupDataRadioBearer of a channel the RLC-facing table already holds changes
      nothing (the duplicate is only logged). */
  lemma SetupOfExistingChannel(t: UeTables, bearer: EpsBearer, rnti: uint16, lcid: uint8, lcGroup: uint8,
                               msu: MacSapUser)
    requires TablesValid(t) && rnti in t.enabledComponentCarrier && lcid in t.rlcLcInstantiated[rnti]
    ensures SetupDataRadioBearer(t, bearer, rnti, lcid, lcGroup, msu) == t
  {
  }

  /** Releasing a bearer removes only its own logical channel. */
  lemma ReleaseOnlyRemovesItsChannel(t: UeTables, rnti: uint16, lcid: uint8)
    requires TablesValid(t) && ReleaseAllowed(t, rnti, lcid)
    ensures var r := ReleaseDataRadioBearer(t, rnti, lcid);
      && r.rlcLcInstantiated[rnti].Keys == t.rlcLcInstantiated[rnti].Keys - {lcid}
      && r.ueAttached[rnti].Keys == t.ueAttached[rnti].Keys - {lcid}
      && (forall l :: l in r.rlcLcInstantiated[rnti] ==> r.rlcLcInstantiated[rnti][l] == t.rlcLcInstantiated[rnti][l])
      && (forall l :: l in r.ueAttached[rnti] ==> r.ueAttached[rnti][l] == t.ueAttached[rnti][l])
      && (forall u :: u in t.ueState && u != rnti ==>
            r.ueAttached[u] == t.ueAttached[u] && r.rlcLcInstantiated[u] == t.rlcLcInstantiated[u])
  {
  }

  /** Under the table invariant the check for an LC map (line 394) never fails on its
      own: a release is allowed exactly when the UE is known and the channel is in
      its RLC-facing table, and such a channel also has a delivery sink. */
  lemma ReleaseAllowedUnderInvariant(t: UeTables, rnti: uint16, lcid: uint8)
    requires TablesValid(t)
    ensures ReleaseAllowed(t, rnti, lcid) <==>
              rnti in t.ueState && lcid in t.rlcLcInstantiated[rnti]
    ensures ReleaseAllowed(t, rnti, lcid) ==> lcid in t.ueAttached[rnti]
  {
  }

  /** The two results of the RRC-facing service agree: the carrier ids a release
      returns are, in order, the component carrier ids of the configurations the
      setup of the same bearer returned. */
  lemma ReleaseIdsAreSetupCarriers(t: UeTables, bearer: EpsBearer, rnti: uint16, lcid: uint8,
                                   lcGroup: uint8, msu: MacSapUser, ccmMsu: MacSapUser)
    requires TablesValid(t) && rnti in t.enabledComponentCarrier
    ensures var s := SetupDataRadioBearer(t, bearer, rnti, lcid, lcGroup, msu);
      var res := PerCarrierConfigs(t.enabledComponentCarrier[rnti], bearer, rnti, lcid, lcGroup, ccmMsu);
      && ReleaseAllowed(s, rnti, lcid)
      && var ids := CarrierIds(s.enabledComponentCarrier[rnti]);
         && |ids| == |res|
         && forall i :: 0 <= i < |ids| ==> ids[i] == res[i].componentCarrierId
  {
  }

  /** Setting up a bearer on a channel without a sink and then releasing it restores
      the tables exactly. */
  lemma ReleaseUndoesSetup(t: UeTables, bearer: EpsBearer, rnti: uint16, lcid: uint8, lcGroup: uint8,
                           msu: MacSapUser)
    requires TablesValid(t) && rnti in t.enabledComponentCarrier && lcid !in t.ueAttached[rnti]
    ensures var s := SetupDataRadioBearer(t, bearer, rnti, lcid, lcGroup, msu);
      ReleaseAllowed(s, rnti, lcid) && ReleaseDataRadioBearer(s, rnti, lcid) == t
  {
    assert lcid !in t.rlcLcInstantiated[rnti];
    var info := BearerLcInfo(bearer, rnti, lcid, lcGroup);
    var s := SetupDataRadioBearer(t, bearer, rnti, lcid, lcGroup, msu);
    assert s.ueAttached == t.ueAttached[rnti := Insert(t.ueAttached[rnti], lcid, msu)];
    assert s.rlcLcInstantiated == t.rlcLcInstantiated[rnti := Insert(t.rlcLcInstantiated[rnti], lcid, info)];
    EraseUndoesInsertAt(t.ueAttached, rnti, lcid, msu);
    EraseUndoesInsertAt(t.rlcLcInstantiated, rnti, lcid, info);
  }

  /** After a release, a second release of the same channel is fatal, and a new setup
      of it is no longer a duplicate: it inserts the descriptor and the new sink. */
  lemma SetupAfterRelease(t: UeTables, rnti: uint16, lcid: uint8, bearer: EpsBearer, lcGroup: uint8,
                          msu: MacSapUser)
    requires TablesValid(t) && ReleaseAllowed(t, rnti, lcid)
    ensures var r := ReleaseDataRadioBearer(t, rnti, lcid);
      && !ReleaseAllowed(r, rnti, lcid)
      && var s := SetupDataRadioBearer(r, bearer, rnti, lcid, lcGroup, msu);
         && s.rlcLcInstantiated[rnti][lcid] == BearerLcInfo(bearer, rnti, lcid, lcGroup)
         && s.ueAttached[rnti][lcid] == msu
         && ReleaseAllowed(s, rnti, lcid)
  {
  }

  /** ConfigureSignalBearer registers the caller's sink for a channel without one and
      keeps an existing sink otherwise. */
  lemma SignalBearerSink(t: UeTables, lcinfo: LcInfo, msu: MacSapUser)
    requires TablesValid(t) && lcinfo.rnti in t.ueAttached
    ensures var r := ConfigureSignalBearer(t, lcinfo, msu);
      && r.ueAttached[lcinfo.rnti][lcinfo.lcId]
           == (if lcinfo.lcId in t.ueAttached[lcinfo.rnti] then t.ueAttached[lcinfo.rnti][lcinfo.lcId] else msu)
      && (forall l :: l in t.ueAttached[lcinfo.rnti] ==> r.ueAttached[lcinfo.rnti][l] == t.ueAttached[lcinfo.rnti][l])
      && (forall u :: u in t.ueAttached && u != lcinfo.rnti ==> r.ueAttached[u] == t.ueAttached[u])
  {
  }

  /** Every operation keeps the single-carrier policy, so a UE's setup result always
      has one entry (for carrier 0) and its release result is [0]. */
  lemma SingleCarrierResults(t: UeTables, bearer: EpsBearer, rnti: uint16, lcid: uint8, lcGroup: uint8,
                             ccmMsu: MacSapUser)
    requires TablesValid(t) && OnlyPrimaryEnabled(t) && rnti in t.enabledComponentCarrier
    ensures var res := PerCarrierConfigs(t.enabledComponentCarrier[rnti], bearer, rnti, lcid, lcGroup, ccmMsu);
      |res| == 1 && res[0].componentCarrierId == 0 && res[0].lc == BearerLcInfo(bearer, rnti, lcid, lcGroup)
    ensures CarrierIds(t.enabledComponentCarrier[rnti]) == [0]
  {
    assert t.enabledComponentCarrier[rnti] == 1;
    ghost var ids := CarrierIds(1);
    assert |ids| == 1 && ids[0] == 0;
  }

  /** The DoAddUe, DoSetupDataRadioBearer, DoReleaseDataRadioBearer sequence for UE 5
      in state 3, logical channel 3 of group 0 and a non-GBR bearer of QCI 9, then a
      second setup after the release, starting from a manager that knows no UE. */
  lemma EndToEndScenario(bearer: EpsBearer, sink: MacSapUser, ccmMsu: MacSapUser,
                         t1: UeTables, t2: UeTables, t3: UeTables, t4: UeTables)
    requires bearer == EpsBearer(9, false, GbrQosInfo(0, 0, 0, 0))
    requires t1 == AddUe(EmptyTables, 5, 3)
    requires t2 == SetupDataRadioBearer(t1, bearer, 5, 3, 0, sink)
    requires t3 == ReleaseDataRadioBearer(t2, 5, 3)
    requires t4 == SetupDataRadioBearer(t3, bearer, 5, 3, 0, sink)
    ensures var res := PerCarrierConfigs(t1.enabledComponentCarrier[5], bearer, 5, 3, 0, ccmMsu);
      |res| == 1 && res[0].lc.rnti == 5 && res[0].lc.lcId == 3 && !res[0].lc.isGbr
    ensures 5 in t1.enabledComponentCarrier && ReleaseAllowed(t2, 5, 3) && 5 in t3.enabledComponentCarrier
    ensures t2.ueAttached[5][3] == sink
    ensures CarrierIds(t2.enabledComponentCarrier[5]) == [0]
    ensures t3 == t1 && !ReleaseAllowed(t3, 5, 3)
    ensures t4 == t2
  {
    assert OnlyPrimaryEnabled(EmptyTables);
    SingleCarrierResults(t1, bearer, 5, 3, 0, ccmMsu);
    assert t1.ueAttached[5] == map[];
    ReleaseUndoesSetup(t1, bearer, 5, 3, 0, sink);
    SingleCarrierResults(t2, bearer, 5, 3, 0, ccmMsu);
  }

  /** If the quantization table maps every id back to itself, the requantization
      step of DoUlReceiveMacCe forwards the report it received. The id round trip is
      a hypothesis here: the table itself is not part of this model. */
  lemma RequantizationIsIdentityForExactTable(bsr: MacCeListElement, toSize: uint8 -> uint32,
                                              toId: uint32 -> uint8)
    requires |bsr.macCeValue.bufferStatus| >= 4
    requires forall id :: toId(toSize(id)) == id
    ensures RequantizedReport(bsr, toSize, toId) == bsr
  {
    var r := RequantizedReport(bsr, toSize, toId);
    assert r.macCeValue.bufferStatus == bsr.macCeValue.bufferStatus;
  }

  // ---------------------------------------------------------------------------
  // The manager object
  // ---------------------------------------------------------------------------

  class NoOpComponentCarrierManager {
    /** The base-class part: the per-carrier endpoint registry. */
    const registry: LteEnbComponentCarrierManager
    /** `BufferSizeLevelBsr::BsrId2BufferSize` and `BufferSize2BsrId`, the quantization
        table of the buffer status report, which lives outside this component. */
    const bsrId2BufferSize: uint8 -> uint32
    const bufferSize2BsrId: uint32 -> uint8
    /** `m_ccmMacSapUser`: the manager's own MAC SAP user, handed to every MAC. */
    var ccmMacSapUser: MacSapUser

    var ueState: map<uint16, uint8>
    var enabledComponentCarrier: map<uint16, uint8>
    var ueAttached: map<uint16, map<uint8, MacSapUser>>
    var rlcLcInstantiated: map<uint16, map<uint8, LcInfo>>

    function Tables(): (t: UeTables)
      reads this
    {
      UeTables(ueState, enabledComponentCarrier, ueAttached, rlcLcInstantiated)
    }

    predicate Valid()
      reads this
    {
      TablesValid(Tables())
    }

    /** Creates a manager over `registry`; `ownMacSapUser` is the forwarder object the
        C++ constructor allocates for itself. */
    constructor (registry: LteEnbComponentCarrierManager, ownMacSapUser: MacSapUser,
                 bsrId2BufferSize: uint8 -> uint32, bufferSize2BsrId: uint32 -> uint8)
      ensures Valid() && Tables() == EmptyTables
      ensures this.registry == registry && ccmMacSapUser == ownMacSapUser
      ensures this.bsrId2BufferSize == bsrId2BufferSize && this.bufferSize2BsrId == bufferSize2BsrId
    {
      this.registry := registry;
      this.bsrId2BufferSize := bsrId2BufferSize;
      this.bufferSize2BsrId := bufferSize2BsrId;
      ccmMacSapUser := ownMacSapUser;
      ueState := map[];
      enabledComponentCarrier := map[];
      ueAttached := map[];
      rlcLcInstantiated := map[];
    }

    /** Replaces the manager's own MAC SAP user. */
    method SetLteMacSapUser(s: MacSapUser)
      modifies this
      ensures ccmMacSapUser == s && Tables() == old(Tables())
    {
      ccmMacSapUser := s;
    }

    // ----- MAC SAP provider side (called by the RLC instances) -----

    /** Sends a PDU to the MAC of the carrier the parameters name. */
    method DoTransmitPdu(params: TransmitPduParameters) returns (r: Result<Forward>)
      ensures r.Fatal? <==> params.componentCarrierId !in registry.ccMacSapProvider
      ensures r.Ok? ==>
                r.value == TransmitPdu(registry.ccMacSapProvider[params.componentCarrierId], params)
    {
      if params.componentCarrierId !in registry.ccMacSapProvider {
        return Fatal("could not find Sap for ComponentCarrier");
      }
      r := Ok(TransmitPdu(registry.ccMacSapProvider[params.componentCarrierId], params));
    }

    /** Reports an RLC buffer status, always to the MAC of carrier 0. */
    method DoReportBufferStatus(params: ReportBufferStatusParameters) returns (r: Result<Forward>)
      ensures r.Fatal? <==> 0 !in registry.ccMacSapProvider
      ensures r.Ok? ==> r.value == ReportBufferStatus(registry.ccMacSapProvider[0], params)
    {
      if 0 !in registry.ccMacSapProvider {
        return Fatal("could not find Sap for ComponentCarrier");
      }
      r := Ok(ReportBufferStatus(registry.ccMacSapProvider[0], params));
    }

    // ----- MAC SAP user side (called by the carriers' MACs) -----

    /** Passes a transmit opportunity, all six arguments unchanged, to the sink of the
        logical channel; an unknown UE or channel is fatal. */
    method DoNotifyTxOpportunity(bytes: uint32, layer: uint8, harqId: uint8, componentCarrierId: uint8,
                                 rnti: uint16, lcid: uint8) returns (r: Result<Forward>)
      ensures r.Fatal? <==> rnti !in ueAttached || lcid !in ueAttached[rnti]
      ensures r.Ok? ==>
                r.value == NotifyTxOpportunity(ueAttached[rnti][lcid], bytes, layer, harqId,
                                               componentCarrierId, rnti, lcid)
    {
      if rnti !in ueAttached {
        return Fatal("could not find RNTI");
      }
      if lcid !in ueAttached[rnti] {
        return Fatal("could not find LCID");
      }
      r := Ok(NotifyTxOpportunity(ueAttached[rnti][lcid], bytes, layer, harqId, componentCarrierId, rnti, lcid));
    }

    /** Delivers a received PDU to the sink of its logical channel. An unknown UE is
        fatal; an unknown channel of a known UE drops the PDU silently. */
    method DoReceivePdu(p: Packet, rnti: uint16, lcid: uint8) returns (r: Result<Option<Forward>>)
      ensures r.Fatal? <==> rnti !in ueAttached
      ensures r == Ok(None) <==> rnti in ueAttached && lcid !in ueAttached[rnti]
      ensures r.Ok? && r.value.Some? ==> r.value.value == ReceivePdu(ueAttached[rnti][lcid], p, rnti, lcid)
    {
      if rnti !in ueAttached {
        return Fatal("could not find RNTI");
      }
      if lcid in ueAttached[rnti] {
        r := Ok(Some(ReceivePdu(ueAttached[rnti][lcid], p, rnti, lcid)));
      } else {
        r := Ok(None);
      }
    }

    // ----- RRC-facing operations -----

    method DoAddUe(rnti: uint16, state: uint8)
      requires Valid()
      modifies this
      ensures Valid() && Tables() == AddUe(old(Tables()), rnti, state)
      ensures ccmMacSapUser == old(ccmMacSapUser)
    {
      ghost var t0 := Tables();
      if rnti !in ueState {
        ueState := ueState[rnti := state];
        // Valid() makes the fatal checks for an existing carrier count, sink map or
        // LC map of an unseen UE unreachable.
        assert rnti !in enabledComponentCarrier && rnti !in ueAttached && rnti !in rlcLcInstantiated;
        enabledComponentCarrier := enabledComponentCarrier[rnti := 1];
        ueAttached := ueAttached[rnti := map[]];
        rlcLcInstantiated := rlcLcInstantiated[rnti := map[]];
      } else {
        ueState := ueState[rnti := state];
      }
      assert Tables() == AddUe(t0, rnti, state);
    }

    /** Checks that the UE is known; nothing is removed. */
    method DoRemoveUe(rnti: uint16) returns (r: Result<()>)
      ensures r.Ok? <==> rnti in ueState && rnti in enabledComponentCarrier
    {
      if rnti !in ueState || rnti !in enabledComponentCarrier {
        return Fatal("request to remove UE info with unknown rnti");
      }
      r := Ok(());
    }

    method DoSetupDataRadioBearer(bearer: EpsBearer, bearerId: uint8, rnti: uint16, lcid: uint8,
                                  lcGroup: uint8, msu: MacSapUser) returns (r: Result<seq<LcsConfig>>)
      requires Valid()
      modifies this
      ensures Valid() && ccmMacSapUser == old(ccmMacSapUser)
      ensures r.Fatal? <==> rnti !in old(enabledComponentCarrier)
      ensures r.Fatal? ==> Tables() == old(Tables())
      ensures r.Ok? ==>
                && r.value == PerCarrierConfigs(old(enabledComponentCarrier)[rnti], bearer, rnti, lcid, lcGroup, ccmMacSapUser)
                && Tables() == SetupDataRadioBearer(old(Tables()), bearer, rnti, lcid, lcGroup, msu)
    {
      ghost var t0 := Tables();
      if rnti !in enabledComponentCarrier {
        return Fatal("SetupDataRadioBearer on unknown rnti");
      }
      var count := enabledComponentCarrier[rnti];
      var res: seq<LcsConfig> := [];
      var ncc: uint16 := 0;
      while ncc < count
        invariant 0 <= ncc <= count
        invariant |res| == ncc
        invariant forall i :: 0 <= i < ncc ==>
                    res[i] == LcsConfig(i, CarrierLcInfo(i, bearer, rnti, lcid, lcGroup), ccmMacSapUser)
      {
        var lci := CarrierLcInfo(ncc as nat, bearer, rnti, lcid, lcGroup);
        res := res + [LcsConfig(ncc, lci, ccmMacSapUser)];
        ncc := ncc + 1;
      }
      // Valid() makes the "RNTI not found" checks on both LC maps unreachable.
      assert rnti in ueAttached && rnti in rlcLcInstantiated;
      if lcid !in rlcLcInstantiated[rnti] {
        var lcinfo := BearerLcInfo(bearer, rnti, lcid, lcGroup);
        rlcLcInstantiated := rlcLcInstantiated[rnti := Insert(rlcLcInstantiated[rnti], lcid, lcinfo)];
        ueAttached := ueAttached[rnti := Insert(ueAttached[rnti], lcid, msu)];
      }
      // otherwise the duplicate is only logged
      assert Tables() == SetupDataRadioBearer(t0, bearer, rnti, lcid, lcGroup, msu);
      r := Ok(res);
    }

    method DoReleaseDataRadioBearer(rnti: uint16, lcid: uint8) returns (r: Result<seq<uint16>>)
      requires Valid()
      modifies this
      ensures Valid() && ccmMacSapUser == old(ccmMacSapUser)
      ensures r.Fatal? <==> !ReleaseAllowed(old(Tables()), rnti, lcid)
      ensures r.Fatal? ==> Tables() == old(Tables())
      ensures r.Ok? ==>
                && r.value == CarrierIds(old(enabledComponentCarrier)[rnti])
                && Tables() == ReleaseDataRadioBearer(old(Tables()), rnti, lcid)
    {
      if rnti !in enabledComponentCarrier {
        return Fatal("request to Release Data Radio Bearer on Ue without Component Carrier Enabled");
      }
      // Valid() makes the "without Logical Channels enabled" check unreachable.
      assert rnti in rlcLcInstantiated;
      if lcid !in rlcLcInstantiated[rnti] {
        return Fatal("Logical Channel not found");
      }
      var count := enabledComponentCarrier[rnti];
      var res: seq<uint16> := [];
      var i: uint16 := 0;
      while i < count
        invariant 0 <= i <= count
        invariant |res| == i
        invariant forall k :: 0 <= k < i ==> res[k] == k
      {
        res := res + [i];
        i := i + 1;
      }
      assert rnti in ueAttached;
      ueAttached := ueAttached[rnti := Erase(ueAttached[rnti], lcid)];
      rlcLcInstantiated := rlcLcInstantiated[rnti := Erase(rlcLcInstantiated[rnti], lcid)];
      r := Ok(res);
    }

    method DoConfigureSignalBearer(lcinfo: LcInfo, msu: MacSapUser) returns (r: Result<MacSapUser>)
      requires Valid()
      modifies this
      ensures Valid() && ccmMacSapUser == old(ccmMacSapUser)
      ensures r.Fatal? <==> lcinfo.rnti !in old(ueAttached)
      ensures r.Fatal? ==> Tables() == old(Tables())
      ensures r.Ok? ==> r.value == ccmMacSapUser && Tables() == ConfigureSignalBearer(old(Tables()), lcinfo, msu)
    {
      if lcinfo.rnti !in ueAttached {
        return Fatal("request to Add a SignalBearer to unknown rnti");
      }
      if lcinfo.lcId !in ueAttached[lcinfo.rnti] {
        ueAttached := ueAttached[lcinfo.rnti := Insert(ueAttached[lcinfo.rnti], lcinfo.lcId, msu)];
      }
      // otherwise the duplicate is only logged
      r := Ok(ccmMacSapUser);
    }

    // ----- Uplink report router (called by carrier 0's MAC) -----

    /** Accepts a buffer status report from carrier 0 only, requantizes its first four
        entries and forwards the rewritten report to carrier 0's uplink sink. */
    method DoUlReceiveMacCe(bsr: MacCeListElement, componentCarrierId: uint8) returns (r: Result<Forward>)
      ensures r.Fatal? <==>
                || componentCarrierId != 0
                || bsr.macCeType != Bsr
                || |bsr.macCeValue.bufferStatus| < 4
                || 0 !in registry.ulCcmMacSapProviderMap
      ensures r.Ok? ==>
                r.value == ReportMacCeToScheduler(registry.ulCcmMacSapProviderMap[0],
                                                  RequantizedReport(bsr, bsrId2BufferSize, bufferSize2BsrId))
    {
      if componentCarrierId != 0 {
        return Fatal("Received BSR from a ComponentCarrier not allowed");
      }
      if bsr.macCeType != Bsr {
        return Fatal("Received a Control Message not allowed");
      }
      var bs := bsr.macCeValue.bufferStatus;
      var i := 0;
      while i < 4
        invariant 0 <= i <= 4 && |bs| == |bsr.macCeValue.bufferStatus|
        invariant i > 0 ==> |bs| >= i
        invariant forall k :: 0 <= k < i ==> bs[k] == bufferSize2BsrId(bsrId2BufferSize(bsr.macCeValue.bufferStatus[k]))
        invariant forall k :: i <= k < |bs| ==> bs[k] == bsr.macCeValue.bufferStatus[k]
      {
        if i >= |bs| {
          // `std::vector::at` throws std::out_of_range, which nothing catches
          return Fatal("vector::at: index out of range");
        }
        var buffer := bsrId2BufferSize(bs[i]);
        bs := bs[i := bufferSize2BsrId(buffer)];
        i := i + 1;
      }
      if 0 !in registry.ulCcmMacSapProviderMap {
        return Fatal("Sap not found in the UlCcmMacSapProviderMap (submap)");
      }
      var rewritten := bsr.(macCeValue := bsr.macCeValue.(bufferStatus := bs));
      assert rewritten == RequantizedReport(bsr, bsrId2BufferSize, bufferSize2BsrId);
      r := Ok(ReportMacCeToScheduler(registry.ulCcmMacSapProviderMap[0], rewritten));
    }
  }
}
