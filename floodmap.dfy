/** The sea-level-rise map: five coastal regions with a fixed base risk, a
    sea-level offset chosen on a slider, and the tier each region's marker
    is drawn in. */
module FloodMap {
  import opened RiskClassifier

  /** A coastal region of the map: its name, position and base flood risk (cm). */
  datatype Region = Region(name: string, lat: real, lon: real, baseRisk: int)

  /** The fixed region table. */
  const REGIONS: seq<Region> := [
    Region("부산", 35.18, 129.08, 120),
    Region("인천", 37.45, 126.70, 100),
    Region("제주", 33.50, 126.53, 80),
    Region("여수", 34.75, 127.66, 90),
    Region("서울", 37.56, 126.97, 50)
  ]

  /** The values the sea-level slider offers: 0 to 200 cm in steps of 10. */
  predicate ValidSeaLevel(seaLevelCm: int) {
    0 <= seaLevelCm <= 200 && seaLevelCm % 10 == 0
  }

  /** The combined risk of a region under a sea-level rise: over the
      slider's range it is at least the base risk and at most 200 cm above it. */
  function TotalRisk(r: Region, seaLevelCm: int): (total: int)
    ensures ValidSeaLevel(seaLevelCm) ==> r.baseRisk <= total <= r.baseRisk + 200
  {
    r.baseRisk + seaLevelCm
  }

  /** The tier of a region's marker; its band holds the combined risk. */
  function MarkerTier(r: Region, seaLevelCm: int): (t: Tier)
    ensures t.Covers(TotalRisk(r, seaLevelCm))
  {
    Classify(TotalRisk(r, seaLevelCm))
  }

  /** The marker tiers of all regions, in table order. */
  function MarkerTiers(seaLevelCm: int): (ts: seq<Tier>)
    ensures |ts| == |REGIONS|
    ensures forall i :: 0 <= i < |ts| ==> ts[i].Covers(TotalRisk(REGIONS[i], seaLevelCm))
  {
    seq(|REGIONS|, i requires 0 <= i < |REGIONS| => MarkerTier(REGIONS[i], seaLevelCm))
  }

  /** Every base risk in the table is one of 50, 80, 90, 100 and 120. */
  lemma BaseRisks(r: Region)
    requires r in REGIONS
    ensures r.baseRisk in {50, 80, 90, 100, 120}
    ensures 50 <= r.baseRisk <= 120
  {
  }

  /** Over the slider's range, every combined risk lies in [50, 320]. */
  lemma TotalRiskRange(r: Region, seaLevelCm: int)
    requires r in REGIONS && ValidSeaLevel(seaLevelCm)
    ensures 50 <= TotalRisk(r, seaLevelCm) <= 320
  {
    BaseRisks(r);
  }

  /** No region is ever drawn as safe, whatever the slider says. */
  lemma NoRegionSafe(r: Region, seaLevelCm: int)
    requires r in REGIONS && ValidSeaLevel(seaLevelCm)
    ensures MarkerTier(r, seaLevelCm) != Safe
    ensures MarkerTier(r, seaLevelCm).Color() != "blue"
  {
    TotalRiskRange(r, seaLevelCm);
  }

  /** Raising the sea level never lowers a region's tier. */
  lemma SeaLevelRaisesTier(r: Region, s1: int, s2: int)
    requires s1 <= s2
    ensures MarkerTier(r, s1).Rank() <= MarkerTier(r, s2).Rank()
  {
    ClassifyMonotone(TotalRisk(r, s1), TotalRisk(r, s2));
  }

  /** 부산 (base risk 120) under a 100 cm rise: 220 cm, drawn dark red. */
  lemma BusanExample()
    ensures REGIONS[0].name == "부산"
    ensures TotalRisk(REGIONS[0], 100) == 220
    ensures MarkerTier(REGIONS[0], 100) == Severe
    ensures MarkerTier(REGIONS[0], 100).Color() == "darkred"
  {
  }

  /** At the slider's default of 100 cm the map shows 부산 and 인천 severe
      and the other three regions in danger. */
  lemma DefaultMap()
    ensures MarkerTiers(100) == [Severe, Severe, Danger, Danger, Danger]
  {
  }
}
