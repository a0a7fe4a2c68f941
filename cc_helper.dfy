/** Carrier-map construction of the component-carrier helper (helper/cc-helper.cc):
    `EquallySpacedCcs` builds the map of eNB component carriers, key 0 the primary, with
    EARFCNs spaced by the configured bandwidth in 16-bit arithmetic; `CreateSingleCc`
    builds one carrier. */
module CcHelper {
  import opened LteTypes
  import StdMap

  /** Bounds of the NumberOfComponentCarriers attribute. */
  const MinCc := 1
  const MaxCc := 2

  /** 2^16: the helper's EARFCN arithmetic is done in `uint16_t`. */
  const Uint16Modulus := 0x1_0000

  /** The helper's attributes. */
  datatype CcHelperConfig = CcHelperConfig(
    numberOfComponentCarriers: uint16,
    ulEarfcn: uint16,
    dlEarfcn: uint16,
    dlBandwidth: uint16,
    ulBandwidth: uint16)

  /** The attribute defaults: one carrier, UlFreq = DlFreq = 0, 25 resource blocks each way. */
  const DefaultConfig := CcHelperConfig(1, 0, 0, 25, 25)

  /** The ranges the attribute checkers enforce. */
  predicate ValidConfig(cfg: CcHelperConfig) {
    && MinCc <= cfg.numberOfComponentCarriers as int <= MaxCc
    && cfg.dlBandwidth <= 100
    && cfg.ulBandwidth <= 100
  }

  /** The EARFCNs a freshly created carrier object holds before the helper sets them. */
  datatype CarrierDefaults = CarrierDefaults(ulEarfcn: uint32, dlEarfcn: uint32)

  /** The part of a component carrier the helper sets. */
  datatype ComponentCarrierEnb = ComponentCarrierEnb(
    ulBandwidth: uint16,
    dlBandwidth: uint16,
    ulEarfcn: uint16,
    dlEarfcn: uint16,
    isPrimary: bool)

  /** One carrier. Which EARFCN rule applies is decided by the helper's configured
      frequency, not by the EARFCN passed in: with a configured frequency the given
      EARFCN is used as it is, without one it is an offset from the carrier's default. */
  function CreateSingleCc(cfg: CcHelperConfig, defaults: CarrierDefaults, ulBandwidth: uint16,
                          dlBandwidth: uint16, ulEarfcn: uint16, dlEarfcn: uint16,
                          isPrimary: bool): (cc: ComponentCarrierEnb)
    ensures cc.ulBandwidth == ulBandwidth && cc.dlBandwidth == dlBandwidth
    ensures cc.isPrimary == isPrimary
    ensures cfg.ulEarfcn != 0 ==> cc.ulEarfcn == ulEarfcn
    ensures cfg.ulEarfcn == 0 ==> cc.ulEarfcn as int == (defaults.ulEarfcn + ulEarfcn) % Uint16Modulus
    ensures cfg.dlEarfcn != 0 ==> cc.dlEarfcn == dlEarfcn
    ensures cfg.dlEarfcn == 0 ==> cc.dlEarfcn as int == (defaults.dlEarfcn + dlEarfcn) % Uint16Modulus
  {
    var ul := if cfg.ulEarfcn != 0 then ulEarfcn else ((defaults.ulEarfcn + ulEarfcn) % Uint16Modulus) as uint16;
    var dl := if cfg.dlEarfcn != 0 then dlEarfcn else ((defaults.dlEarfcn + dlEarfcn) % Uint16Modulus) as uint16;
    ComponentCarrierEnb(ulBandwidth, dlBandwidth, ul, dl, isPrimary)
  }

  /** Reference definition of carrier i's EARFCN: the configured frequency, or the
      carrier default when none is configured, plus i bandwidths, modulo 2^16. */
  function SpacedEarfcn(configured: uint16, default: uint32, bandwidth: uint16, i: nat): (e: uint16)
    ensures configured != 0 ==> e as int == (configured + i * bandwidth) % Uint16Modulus
    ensures configured == 0 ==> e as int == (default + i * bandwidth) % Uint16Modulus
  {
    var base := if configured != 0 then configured as int else default as int;
    ((base + i * bandwidth) % Uint16Modulus) as uint16
  }

  /** Reference definition of carrier i of the equally spaced map. */
  function SpacedCarrier(cfg: CcHelperConfig, defaults: CarrierDefaults, i: nat): (cc: ComponentCarrierEnb)
    ensures cc.isPrimary <==> i == 0
    ensures cc.ulBandwidth == cfg.ulBandwidth && cc.dlBandwidth == cfg.dlBandwidth
  {
    ComponentCarrierEnb(cfg.ulBandwidth, cfg.dlBandwidth,
                        SpacedEarfcn(cfg.ulEarfcn, defaults.ulEarfcn, cfg.ulBandwidth, i),
                        SpacedEarfcn(cfg.dlEarfcn, defaults.dlEarfcn, cfg.dlBandwidth, i),
                        i == 0)
  }

  /** The carrier map: keys exactly 0..n-1, and carrier i as `SpacedCarrier` describes it,
      so exactly key 0 is primary and every carrier has the configured bandwidths. */
  method EquallySpacedCcs(cfg: CcHelperConfig, defaults: CarrierDefaults)
    returns (ccmap: map<uint8, ComponentCarrierEnb>)
    requires ValidConfig(cfg)
    ensures forall k: uint8 :: k in ccmap <==> k < cfg.numberOfComponentCarriers
    ensures forall k :: k in ccmap ==> ccmap[k] == SpacedCarrier(cfg, defaults, k as nat)
  {
    ccmap := map[];
    var i: uint16 := 0;
    while i < cfg.numberOfComponentCarriers
      invariant i <= cfg.numberOfComponentCarriers
      invariant forall k: uint8 :: k in ccmap <==> k < i
      invariant forall k :: k in ccmap ==> ccmap[k] == SpacedCarrier(cfg, defaults, k as nat)
    {
      var pc := false;
      var ul := ((cfg.ulEarfcn + i * cfg.ulBandwidth) % Uint16Modulus) as uint16;
      var dl := ((cfg.dlEarfcn + i * cfg.dlBandwidth) % Uint16Modulus) as uint16;
      if i == 0 {
        pc := true;
      }
      var cc := CreateSingleCc(cfg, defaults, cfg.ulBandwidth, cfg.dlBandwidth, ul, dl, pc);
      assert cc == SpacedCarrier(cfg, defaults, i as nat);
      ccmap := StdMap.Insert(ccmap, i as uint8, cc);
      i := i + 1;
    }
  }

  /** Neighbouring carriers are one bandwidth apart, modulo 2^16, in both directions. */
  lemma {:induction false} NeighbouringCarriersAreOneBandwidthApart(cfg: CcHelperConfig, defaults: CarrierDefaults, i: nat)
    ensures SpacedCarrier(cfg, defaults, i + 1).ulEarfcn as int
            == (SpacedCarrier(cfg, defaults, i).ulEarfcn + cfg.ulBandwidth) % Uint16Modulus
    ensures SpacedCarrier(cfg, defaults, i + 1).dlEarfcn as int
            == (SpacedCarrier(cfg, defaults, i).dlEarfcn + cfg.dlBandwidth) % Uint16Modulus
  {
    SpacedStep(cfg.ulEarfcn, defaults.ulEarfcn, cfg.ulBandwidth, i);
    SpacedStep(cfg.dlEarfcn, defaults.dlEarfcn, cfg.dlBandwidth, i);
  }

  lemma SpacedStep(configured: uint16, default: uint32, bandwidth: uint16, i: nat)
    ensures SpacedEarfcn(configured, default, bandwidth, i + 1) as int
            == (SpacedEarfcn(configured, default, bandwidth, i) + bandwidth) % Uint16Modulus
  {
    var base := if configured != 0 then configured as int else default as int;
    var x := base + i * bandwidth;
    assert base + (i + 1) * bandwidth == x + bandwidth;
    ModAddCongruence(x, bandwidth);
  }

  /** (x mod 2^16 + b) mod 2^16 == (x + b) mod 2^16. */
  lemma ModAddCongruence(x: int, b: int)
    ensures (x % Uint16Modulus + b) % Uint16Modulus == (x + b) % Uint16Modulus
  {
  }

  /** With a configured frequency, the primary carrier sits exactly on it. */
  lemma PrimaryCarrierOnConfiguredFrequency(cfg: CcHelperConfig, defaults: CarrierDefaults)
    requires cfg.ulEarfcn != 0 && cfg.dlEarfcn != 0
    ensures SpacedCarrier(cfg, defaults, 0).ulEarfcn == cfg.ulEarfcn
    ensures SpacedCarrier(cfg, defaults, 0).dlEarfcn == cfg.dlEarfcn
  {
  }

  /** The attribute defaults are in range and give one primary carrier of 25 resource
      blocks on the carrier object's default EARFCNs. */
  lemma DefaultConfigGivesOnePrimaryCarrier(defaults: CarrierDefaults)
    ensures ValidConfig(DefaultConfig)
    ensures SpacedCarrier(DefaultConfig, defaults, 0)
            == ComponentCarrierEnb(25, 25, (defaults.ulEarfcn % Uint16Modulus) as uint16,
                                   (defaults.dlEarfcn % Uint16Modulus) as uint16, true)
  {
  }
}
