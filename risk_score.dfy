/**
 * Risk factors and their aggregation into a percentage
 * (`calculate_risk_percentage`).
 */
module RiskScore {

  /** One entry of the ordered description-to-weight mapping. */
  datatype RiskFactor = RiskFactor(description: string, weight: nat)

  /** Sum of the weights, added up in insertion order. */
  function TotalWeight(fs: seq<RiskFactor>): nat {
    if fs == [] then 0 else TotalWeight(fs[..|fs| - 1]) + fs[|fs| - 1].weight
  }

  /** The descriptions, in order (the keys of the mapping). */
  function Descriptions(fs: seq<RiskFactor>): (ds: seq<string>)
    ensures |ds| == |fs|
    ensures forall i :: 0 <= i < |fs| ==> ds[i] == fs[i].description
  {
    if fs == [] then [] else [fs[0].description] + Descriptions(fs[1..])
  }

  /**
   * The total weight divided by 100 and multiplied by 100, capped at 100. The
   * rescaling is exact, so the result is the whole-number total clamped to 100.
   */
  function RiskPercentage(fs: seq<RiskFactor>): (r: real)
    ensures 0.0 <= r <= 100.0
    ensures r == (if TotalWeight(fs) <= 100 then TotalWeight(fs) else 100) as real
    ensures r.Floor as real == r
  {
    var total := TotalWeight(fs) as real;
    var scaled := (total / 100.0) * 100.0;
    if scaled <= 100.0 then scaled else 100.0
  }

  /** Inserting one more factor adds its weight to the total and never lowers the percentage. */
  lemma RiskPercentageGrows(fs: seq<RiskFactor>, f: RiskFactor)
    ensures TotalWeight(fs + [f]) == TotalWeight(fs) + f.weight
    ensures RiskPercentage(fs) <= RiskPercentage(fs + [f])
  {
    assert (fs + [f])[..|fs|] == fs;
  }

  /** The percentage is monotone in the total weight. */
  lemma RiskPercentageMonotone(a: seq<RiskFactor>, b: seq<RiskFactor>)
    requires TotalWeight(a) <= TotalWeight(b)
    ensures RiskPercentage(a) <= RiskPercentage(b)
  {
  }

  /** Any non-empty list of factors of positive weight gives a positive percentage. */
  lemma RiskPercentagePositive(fs: seq<RiskFactor>)
    requires fs != []
    requires forall i :: 0 <= i < |fs| ==> fs[i].weight > 0
    ensures RiskPercentage(fs) > 0.0
  {
  }
}
