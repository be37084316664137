/** Flood-risk classification of the sea-level map: a risk value in
    centimetres (a region's base risk plus the simulated sea-level rise)
    is mapped to one of five severity tiers, each drawn in its own colour. */
module RiskClassifier {

  /** The five tiers of the map legend, least severe first:
      안전 (safe), 주의 (caution), 경고 (warning), 위험 (danger), 매우 위험 (severe). */
  datatype Tier = Safe | Caution | Warning | Danger | Severe {

    /** The marker colour the map uses for this tier. */
    function Color(): string {
      match this
      case Safe => "blue"
      case Caution => "lightblue"
      case Warning => "orange"
      case Danger => "orangered"
      case Severe => "darkred"
    }

    /** Position of the tier in the severity order (0 = safe, 4 = severe). */
    function Rank(): nat {
      match this
      case Safe => 0
      case Caution => 1
      case Warning => 2
      case Danger => 3
      case Severe => 4
    }

    /** The band of risk values between the thresholds `risk_color` tests,
        lower bound inclusive and upper bound exclusive; the tiers are named
        as in the map legend. The legend's safe band starts at 0, while this
        band, like the final `else` of the cascade, also holds negative values. */
    predicate Covers(risk: int) {
      match this
      case Safe => risk < 50
      case Caution => 50 <= risk < 100
      case Warning => 100 <= risk < 150
      case Danger => 150 <= risk < 200
      case Severe => 200 <= risk
    }
  }

  /** The colours in severity order. */
  const PALETTE: seq<string> := ["blue", "lightblue", "orange", "orangered", "darkred"]

  /** The lower bounds of the tiers above Safe, in increasing order. */
  const THRESHOLDS: seq<int> := [50, 100, 150, 200]

  /** The tier of a risk value: thresholds are tested from the highest down,
      so a value on a boundary lands in the higher tier; anything below 50,
      negative values included, is safe. The result's band holds the value. */
  function Classify(risk: int): (t: Tier)
    ensures t.Covers(risk)
  {
    if risk >= 200 then Severe
    else if risk >= 150 then Danger
    else if risk >= 100 then Warning
    else if risk >= 50 then Caution
    else Safe
  }

  /** `risk_color`: the colour of a risk value, always one of the five
      colours of the palette, and the one at the position of its tier. */
  function RiskColor(risk: int): (c: string)
    ensures c in PALETTE
    ensures PALETTE[Classify(risk).Rank()] == c
  {
    Classify(risk).Color()
  }

  /** Number of entries of `s` that `risk` has reached. */
  function CountReached(s: seq<int>, risk: int): nat {
    if s == [] then 0
    else (if s[0] <= risk then 1 else 0) + CountReached(s[1..], risk)
  }

  /** The threshold bands partition the integers: a value lies in the band of
      exactly one tier, the one Classify returns. */
  lemma CoversUnique(t: Tier, risk: int)
    ensures t.Covers(risk) <==> t == Classify(risk)
  {
  }

  /** Boundary values belong to the higher tier, and the value just below a
      boundary to the lower one. */
  lemma BoundaryTiers()
    ensures Classify(200) == Severe && Classify(199) == Danger
    ensures Classify(150) == Danger && Classify(149) == Warning
    ensures Classify(100) == Warning && Classify(99) == Caution
    ensures Classify(50) == Caution && Classify(49) == Safe
    ensures forall risk :: risk < 50 ==> Classify(risk) == Safe
  {
  }

  /** A larger risk value never gets a less severe tier. */
  lemma ClassifyMonotone(r1: int, r2: int)
    requires r1 <= r2
    ensures Classify(r1).Rank() <= Classify(r2).Rank()
  {
  }

  /** The tier's rank is the number of thresholds the value has reached:
      the cascade of comparisons is the threshold table read from the top. */
  lemma RankCountsThresholds(risk: int)
    ensures Classify(risk).Rank() == CountReached(THRESHOLDS, risk)
  {
    var s := THRESHOLDS;
    assert s[1..] == [100, 150, 200];
    assert s[1..][1..] == [150, 200];
    assert s[1..][1..][1..] == [200];
    assert s[1..][1..][1..][1..] == [];
    assert CountReached([200], risk) == if 200 <= risk then 1 else 0;
    assert CountReached([150, 200], risk) == (if 150 <= risk then 1 else 0) + CountReached([200], risk);
    assert CountReached([100, 150, 200], risk) == (if 100 <= risk then 1 else 0) + CountReached([150, 200], risk);
  }

  /** Distinct tiers are drawn in distinct colours, so a marker's colour
      tells its tier. */
  lemma ColorsDistinct(t1: Tier, t2: Tier)
    requires t1.Color() == t2.Color()
    ensures t1 == t2
  {
  }
}
