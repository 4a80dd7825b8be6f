/**
 * The battery of eleven risk rules: their thresholds, descriptions and weights,
 * the condition of each, and the ordered list of the rules a pair triggers.
 */
module RiskRules {
  import opened TokenRecord
  import opened RiskScore

  const RATIO_THRESHOLD_24H: real := 2.2
  const RATIO_THRESHOLD_6H: real := 2.3
  const RATIO_THRESHOLD_1H: real := 2.5
  const PRICE_CHANGE_THRESHOLD: real := 100000.0
  const MIN_LIQUIDITY_THRESHOLD: real := 10000.0
  const VERY_MIN_LIQUIDITY: real := 1000.0
  const RECENT_PAIR_THRESHOLD: real := 7200.0       // 2 hours, in seconds
  const VERY_RECENT_PAIR_THRESHOLD: real := 3600.0  // 1 hour, in seconds
  const MARKET_CAP_THRESHOLD_HIGH: real := 250000000.0
  const MARKET_CAP_THRESHOLD_LOW: real := 100000000.0
  const PRICE_CHANGE_MARKET_CAP_THRESHOLD: real := 100000.0

  datatype RuleId =
    | YoungHighCap | RecentPair
    | HighRatio24h | HighRatio6h | HighRatio1h
    | PriceSurge | LowLiquidity | VeryLowLiquidity
    | HighCapPriceSurge | HighCapNoInfo | NoInfo

  /** The rules in evaluation order. */
  const BATTERY: seq<RuleId> := [
    YoungHighCap, RecentPair, HighRatio24h, HighRatio6h, HighRatio1h,
    PriceSurge, LowLiquidity, VeryLowLiquidity, HighCapPriceSurge, HighCapNoInfo, NoInfo]

  /** Index of a rule in `BATTERY`. */
  function Position(id: RuleId): nat {
    match id
    case YoungHighCap => 0
    case RecentPair => 1
    case HighRatio24h => 2
    case HighRatio6h => 3
    case HighRatio1h => 4
    case PriceSurge => 5
    case LowLiquidity => 6
    case VeryLowLiquidity => 7
    case HighCapPriceSurge => 8
    case HighCapNoInfo => 9
    case NoInfo => 10
  }

  // The descriptions, the keys of the risk-factor mapping. Each is written as a
  // concatenation of short pieces only to keep the verifier's obligations about
  // string literals (no newline, pairwise distinct) small; the value is the key
  // exactly as the program prints it.
  const DESC_YOUNG_HIGH_CAP := "The pair was created " + "less than an hour ago "
    + "and the Market Cap is " + "over 100 million."
  const DESC_RECENT_PAIR := "The pair was created " + "recently."
  const DESC_HIGH_RATIO_24H := "The buy/sell ratio in " + "the last 24 hours is "
    + "anormally high or " + "there are no sells."
  const DESC_HIGH_RATIO_6H := "The buy/sell ratio in " + "the last 6 hours is "
    + "anormally high or " + "there are no sells."
  const DESC_HIGH_RATIO_1H := "The buy/sell ratio in " + "the last hour is " + "anormally high or "
    + "there are no sells."
  const DESC_PRICE_SURGE := "The price change in " + "the last 24 hours is " + "anormally high."
  const DESC_LOW_LIQUIDITY := "Liquidity is low."
  const DESC_VERY_LOW_LIQUIDITY := "Liquidity is very " + "low."
  const DESC_HIGH_CAP_PRICE_SURGE := "The Market Cap is " + "over 250 million and "
    + "the price change in " + "the last 24 hours is " + "over 100,000."
  const DESC_HIGH_CAP_NO_INFO := "The Market Cap is " + "over 100 million and "
    + "the crypto has no " + "information."
  const DESC_NO_INFO := "The crypto has no " + "information."

  function Description(id: RuleId): string {
    match id
    case YoungHighCap => DESC_YOUNG_HIGH_CAP
    case RecentPair => DESC_RECENT_PAIR
    case HighRatio24h => DESC_HIGH_RATIO_24H
    case HighRatio6h => DESC_HIGH_RATIO_6H
    case HighRatio1h => DESC_HIGH_RATIO_1H
    case PriceSurge => DESC_PRICE_SURGE
    case LowLiquidity => DESC_LOW_LIQUIDITY
    case VeryLowLiquidity => DESC_VERY_LOW_LIQUIDITY
    case HighCapPriceSurge => DESC_HIGH_CAP_PRICE_SURGE
    case HighCapNoInfo => DESC_HIGH_CAP_NO_INFO
    case NoInfo => DESC_NO_INFO
  }

  function Weight(id: RuleId): nat {
    match id
    case YoungHighCap => 30
    case RecentPair => 5
    case HighRatio24h => 20
    case HighRatio6h => 15
    case HighRatio1h => 10
    case PriceSurge => 15
    case LowLiquidity => 5
    case VeryLowLiquidity => 10
    case HighCapPriceSurge => 20
    case HighCapNoInfo => 25
    case NoInfo => 5
  }

  /** The mapping entry a triggered rule inserts. */
  function Factor(id: RuleId): RiskFactor {
    RiskFactor(Description(id), Weight(id))
  }

  /** The buy/sell test: no sells but some buys, or a ratio above the threshold
      (the division happens only when there are sells). */
  predicate BuySellAlarm(w: Window, threshold: real) {
    (w.sells == 0 && w.buys > 0) || (w.sells > 0 && w.buys as real / w.sells as real > threshold)
  }

  /** The condition of each rule, `now` being the current time in seconds. */
  predicate Fires(id: RuleId, s: PairStats, now: real) {
    var age := now - s.createdAt;
    match id
    case YoungHighCap => age < VERY_RECENT_PAIR_THRESHOLD && s.marketCap > MARKET_CAP_THRESHOLD_LOW
    case RecentPair => age < RECENT_PAIR_THRESHOLD
    case HighRatio24h => BuySellAlarm(s.txns24h, RATIO_THRESHOLD_24H)
    case HighRatio6h => BuySellAlarm(s.txns6h, RATIO_THRESHOLD_6H)
    case HighRatio1h => BuySellAlarm(s.txns1h, RATIO_THRESHOLD_1H)
    case PriceSurge => s.priceChange24h > PRICE_CHANGE_THRESHOLD
    case LowLiquidity => s.liquidityUsd < MIN_LIQUIDITY_THRESHOLD && s.liquidityUsd > VERY_MIN_LIQUIDITY
    case VeryLowLiquidity => s.liquidityUsd < VERY_MIN_LIQUIDITY
    case HighCapPriceSurge => s.marketCap > MARKET_CAP_THRESHOLD_HIGH && s.priceChange24h > PRICE_CHANGE_MARKET_CAP_THRESHOLD
    case HighCapNoInfo => s.marketCap > MARKET_CAP_THRESHOLD_LOW && !s.hasInfo
    case NoInfo => !s.hasInfo
  }

  /** One check: `id` is appended to the list when it fires. */
  function Keep(ids: seq<RuleId>, id: RuleId, s: PairStats, now: real): seq<RuleId> {
    if Fires(id, s, now) then ids + [id] else ids
  }

  /** The rules among the first `n` of the battery that fire, in battery order. */
  function FiredUpTo(s: PairStats, now: real, n: nat): seq<RuleId>
    requires n <= |BATTERY|
  {
    if n == 0 then [] else Keep(FiredUpTo(s, now, n - 1), BATTERY[n - 1], s, now)
  }

  /** The rules the pair triggers, in evaluation order. */
  function Fired(s: PairStats, now: real): seq<RuleId> {
    FiredUpTo(s, now, |BATTERY|)
  }

  function Factors(ids: seq<RuleId>): (fs: seq<RiskFactor>)
    ensures |fs| == |ids|
    ensures forall i :: 0 <= i < |ids| ==> fs[i] == Factor(ids[i])
  {
    if ids == [] then [] else Factors(ids[..|ids| - 1]) + [Factor(ids[|ids| - 1])]
  }

  /** The risk-factor mapping the rule battery builds for a pair: the entries of the firing rules. */
  function Triggered(s: PairStats, now: real): seq<RiskFactor> {
    Factors(Fired(s, now))
  }

  /** Sum of the weights of a list of rules. */
  function RulesWeight(ids: seq<RuleId>): nat {
    if ids == [] then 0 else RulesWeight(ids[..|ids| - 1]) + Weight(ids[|ids| - 1])
  }

  /** Rules listed in strictly increasing evaluation order (so each at most once). */
  predicate InRuleOrder(ids: seq<RuleId>) {
    forall i, j :: 0 <= i < j < |ids| ==> Position(ids[i]) < Position(ids[j])
  }

  // ---------------------------------------------------------------------------
  // The battery itself

  lemma BatteryComplete(id: RuleId)
    ensures Position(id) < |BATTERY| && BATTERY[Position(id)] == id
  {
  }

  lemma BatteryPositions()
    ensures forall k :: 0 <= k < |BATTERY| ==> Position(BATTERY[k]) == k
  {
  }

  /** The eleven weights sum to 160. */
  lemma BatteryWeight()
    ensures RulesWeight(BATTERY) == 160
  {
    forall k | 1 <= k <= |BATTERY| ensures BATTERY[..k][..k - 1] == BATTERY[..k - 1] {
    }
    assert RulesWeight(BATTERY[..1]) == 30;
    assert RulesWeight(BATTERY[..2]) == 35;
    assert RulesWeight(BATTERY[..3]) == 55;
    assert RulesWeight(BATTERY[..4]) == 70;
    assert RulesWeight(BATTERY[..5]) == 80;
    assert RulesWeight(BATTERY[..6]) == 95;
    assert RulesWeight(BATTERY[..7]) == 100;
    assert RulesWeight(BATTERY[..8]) == 110;
    assert RulesWeight(BATTERY[..9]) == 130;
    assert RulesWeight(BATTERY[..10]) == 155;
    assert BATTERY[..11] == BATTERY;
  }

  /** No two rules share a description, so the mapping never overwrites an entry. */
  lemma DescriptionsDistinct(a: RuleId, b: RuleId)
    requires a != b
    ensures Description(a) != Description(b)
  {
    // The only two descriptions of equal length differ in their fifth character.
    assert DESC_RECENT_PAIR[4] != DESC_NO_INFO[4];
  }

  // Every description is a single line; the proof goes group by group to keep
  // each proof obligation small.

  lemma AgeDescriptionsSingleLine()
    ensures '\n' !in DESC_YOUNG_HIGH_CAP && '\n' !in DESC_RECENT_PAIR
  {
  }

  lemma RatioDescriptionsSingleLine()
    ensures '\n' !in DESC_HIGH_RATIO_24H && '\n' !in DESC_HIGH_RATIO_6H && '\n' !in DESC_HIGH_RATIO_1H
  {
  }

  lemma HighCapPriceSurgeSingleLine()
    ensures '\n' !in DESC_HIGH_CAP_PRICE_SURGE
  {
  }

  lemma HighCapNoInfoSingleLine()
    ensures '\n' !in DESC_HIGH_CAP_NO_INFO
  {
  }

  lemma OtherDescriptionsSingleLine()
    ensures '\n' !in DESC_PRICE_SURGE && '\n' !in DESC_LOW_LIQUIDITY
    ensures '\n' !in DESC_VERY_LOW_LIQUIDITY && '\n' !in DESC_NO_INFO
  {
  }

  lemma DescriptionSingleLine(id: RuleId)
    ensures '\n' !in Description(id)
  {
    AgeDescriptionsSingleLine();
    RatioDescriptionsSingleLine();
    HighCapPriceSurgeSingleLine();
    HighCapNoInfoSingleLine();
    OtherDescriptionsSingleLine();
  }

  // ---------------------------------------------------------------------------
  // Rule conditions

  /** Buy/sell ratio test without division: `buys/sells > t` iff `buys > t*sells` when `sells > 0`. */
  lemma BuySellAlarmCrossMultiplied(w: Window, threshold: real)
    ensures BuySellAlarm(w, threshold) <==>
      (w.sells == 0 && w.buys > 0) || (w.sells > 0 && w.buys as real > threshold * w.sells as real)
  {
    if w.sells > 0 {
      var b, c := w.buys as real, w.sells as real;
      assert b / c * c == b;
      assert b / c > threshold <==> b / c * c > threshold * c;
    }
  }

  /** The three ratio rules, on integers. */
  lemma RatioRulesOnIntegers(s: PairStats, now: real)
    ensures Fires(HighRatio24h, s, now) <==>
      (s.txns24h.sells == 0 && s.txns24h.buys > 0) || (s.txns24h.sells > 0 && 10 * s.txns24h.buys > 22 * s.txns24h.sells)
    ensures Fires(HighRatio6h, s, now) <==>
      (s.txns6h.sells == 0 && s.txns6h.buys > 0) || (s.txns6h.sells > 0 && 10 * s.txns6h.buys > 23 * s.txns6h.sells)
    ensures Fires(HighRatio1h, s, now) <==>
      (s.txns1h.sells == 0 && s.txns1h.buys > 0) || (s.txns1h.sells > 0 && 2 * s.txns1h.buys > 5 * s.txns1h.sells)
  {
    BuySellAlarmCrossMultiplied(s.txns24h, RATIO_THRESHOLD_24H);
    BuySellAlarmCrossMultiplied(s.txns6h, RATIO_THRESHOLD_6H);
    BuySellAlarmCrossMultiplied(s.txns1h, RATIO_THRESHOLD_1H);
  }

  /** No sells: the window alarms exactly when there are buys; no trades at all never alarms. */
  lemma NoSellsAlarm(w: Window, threshold: real)
    requires w.sells == 0
    ensures BuySellAlarm(w, threshold) <==> w.buys > 0
  {
  }

  /** The two liquidity rules never both fire; 1,000 and 10,000 exactly fire neither. */
  lemma LiquidityRulesExclusive(s: PairStats, now: real)
    ensures !(Fires(LowLiquidity, s, now) && Fires(VeryLowLiquidity, s, now))
    ensures s.liquidityUsd == 1000.0 || s.liquidityUsd == 10000.0 ==>
      !Fires(LowLiquidity, s, now) && !Fires(VeryLowLiquidity, s, now)
  {
  }

  /** Overlaps between rules: a young high-cap pair is also recent; a high-cap pair
      without info scores both info rules; a missing info always scores rule 11. */
  lemma RuleImplications(s: PairStats, now: real)
    ensures Fires(YoungHighCap, s, now) ==> Fires(RecentPair, s, now)
    ensures Fires(HighCapPriceSurge, s, now) ==> Fires(PriceSurge, s, now)
    ensures Fires(HighCapNoInfo, s, now) ==> Fires(NoInfo, s, now)
    ensures !s.hasInfo ==> Fires(NoInfo, s, now)
    ensures !s.hasInfo && s.marketCap > 100000000.0 ==> Fires(HighCapNoInfo, s, now)
  {
  }

  // ---------------------------------------------------------------------------
  // The filtered list

  lemma {:induction false} FiredUpToMembers(s: PairStats, now: real, n: nat)
    requires n <= |BATTERY|
    ensures forall id :: id in FiredUpTo(s, now, n) <==> Position(id) < n && Fires(id, s, now)
  {
    if n > 0 {
      FiredUpToMembers(s, now, n - 1);
      BatteryPositions();
      forall id ensures id in FiredUpTo(s, now, n) <==> Position(id) < n && Fires(id, s, now) {
        BatteryComplete(id);
      }
    }
  }

  lemma {:induction false} FiredUpToInOrder(s: PairStats, now: real, n: nat)
    requires n <= |BATTERY|
    ensures InRuleOrder(FiredUpTo(s, now, n))
    ensures forall i :: 0 <= i < |FiredUpTo(s, now, n)| ==> Position(FiredUpTo(s, now, n)[i]) < n
  {
    if n > 0 {
      FiredUpToInOrder(s, now, n - 1);
      BatteryPositions();
    }
  }

  /**
   * The table-driven list, unrolled: the eleven checks one after the other in
   * evaluation order, each appending its rule when it fires.
   */
  lemma FiredUnrolled(s: PairStats, now: real)
    ensures Fired(s, now) ==
      var f0: seq<RuleId> := [];
      var f1 := if Fires(YoungHighCap, s, now) then f0 + [YoungHighCap] else f0;
      var f2 := if Fires(RecentPair, s, now) then f1 + [RecentPair] else f1;
      var f3 := if Fires(HighRatio24h, s, now) then f2 + [HighRatio24h] else f2;
      var f4 := if Fires(HighRatio6h, s, now) then f3 + [HighRatio6h] else f3;
      var f5 := if Fires(HighRatio1h, s, now) then f4 + [HighRatio1h] else f4;
      var f6 := if Fires(PriceSurge, s, now) then f5 + [PriceSurge] else f5;
      var f7 := if Fires(LowLiquidity, s, now) then f6 + [LowLiquidity] else f6;
      var f8 := if Fires(VeryLowLiquidity, s, now) then f7 + [VeryLowLiquidity] else f7;
      var f9 := if Fires(HighCapPriceSurge, s, now) then f8 + [HighCapPriceSurge] else f8;
      var f10 := if Fires(HighCapNoInfo, s, now) then f9 + [HighCapNoInfo] else f9;
      var f11 := if Fires(NoInfo, s, now) then f10 + [NoInfo] else f10;
      f11
  {
    assert FiredUpTo(s, now, 1) == Keep(FiredUpTo(s, now, 0), YoungHighCap, s, now);
    assert FiredUpTo(s, now, 2) == Keep(FiredUpTo(s, now, 1), RecentPair, s, now);
    assert FiredUpTo(s, now, 3) == Keep(FiredUpTo(s, now, 2), HighRatio24h, s, now);
    assert FiredUpTo(s, now, 4) == Keep(FiredUpTo(s, now, 3), HighRatio6h, s, now);
    assert FiredUpTo(s, now, 5) == Keep(FiredUpTo(s, now, 4), HighRatio1h, s, now);
    assert FiredUpTo(s, now, 6) == Keep(FiredUpTo(s, now, 5), PriceSurge, s, now);
    assert FiredUpTo(s, now, 7) == Keep(FiredUpTo(s, now, 6), LowLiquidity, s, now);
    assert FiredUpTo(s, now, 8) == Keep(FiredUpTo(s, now, 7), VeryLowLiquidity, s, now);
    assert FiredUpTo(s, now, 9) == Keep(FiredUpTo(s, now, 8), HighCapPriceSurge, s, now);
    assert FiredUpTo(s, now, 10) == Keep(FiredUpTo(s, now, 9), HighCapNoInfo, s, now);
    assert FiredUpTo(s, now, 11) == Keep(FiredUpTo(s, now, 10), NoInfo, s, now);
  }

  /** Each rule is listed once exactly when it fires, and the list follows evaluation order. */
  lemma FiredSpec(s: PairStats, now: real)
    ensures forall id :: id in Fired(s, now) <==> Fires(id, s, now)
    ensures InRuleOrder(Fired(s, now))
  {
    FiredUpToMembers(s, now, |BATTERY|);
    forall id ensures Position(id) < |BATTERY| {
      BatteryComplete(id);
    }
    FiredUpToInOrder(s, now, |BATTERY|);
  }

  lemma FactorsDistinct(ids: seq<RuleId>)
    requires InRuleOrder(ids)
    ensures forall i, j :: 0 <= i < j < |ids| ==> Factors(ids)[i].description != Factors(ids)[j].description
  {
    var fs := Factors(ids);
    forall i, j | 0 <= i < j < |ids| ensures fs[i].description != fs[j].description {
      DescriptionsDistinct(ids[i], ids[j]);
    }
  }

  /**
   * The triggered mapping holds the factors of `Fired` (see `FiredSpec`), in that
   * order: no description twice, every weight positive.
   */
  lemma TriggeredSpec(s: PairStats, now: real)
    ensures forall i, j :: 0 <= i < j < |Triggered(s, now)| ==>
      Triggered(s, now)[i].description != Triggered(s, now)[j].description
    ensures forall i :: 0 <= i < |Triggered(s, now)| ==> Triggered(s, now)[i].weight > 0
  {
    FiredUpToInOrder(s, now, |BATTERY|);
    FactorsDistinct(Fired(s, now));
  }

  // ---------------------------------------------------------------------------
  // Weights

  lemma {:induction false} FactorsWeight(ids: seq<RuleId>)
    ensures TotalWeight(Factors(ids)) == RulesWeight(ids)
  {
    if ids != [] {
      var fs := Factors(ids);
      assert fs[..|fs| - 1] == Factors(ids[..|ids| - 1]);
      FactorsWeight(ids[..|ids| - 1]);
    }
  }

  /** The total weight of the triggered mapping is the sum of the weights of the firing rules. */
  lemma TriggeredWeight(s: PairStats, now: real)
    ensures TotalWeight(Triggered(s, now)) == RulesWeight(Fired(s, now))
  {
    FactorsWeight(Fired(s, now));
  }

  lemma RulesWeightSnoc(ids: seq<RuleId>, id: RuleId)
    ensures RulesWeight(ids + [id]) == RulesWeight(ids) + Weight(id)
  {
    assert (ids + [id])[..|ids|] == ids;
  }

  lemma RulesWeightAppend(ids: seq<RuleId>, id: RuleId, s: PairStats, now: real)
    ensures RulesWeight(Keep(ids, id, s, now)) == RulesWeight(ids) + (if Fires(id, s, now) then Weight(id) else 0)
  {
    RulesWeightSnoc(ids, id);
  }

  lemma {:induction false} FiredUpToMonotone(n: nat, s1: PairStats, now1: real, s2: PairStats, now2: real)
    requires n <= |BATTERY|
    requires forall id :: Fires(id, s1, now1) ==> Fires(id, s2, now2)
    ensures RulesWeight(FiredUpTo(s1, now1, n)) <= RulesWeight(FiredUpTo(s2, now2, n))
  {
    if n > 0 {
      FiredUpToMonotone(n - 1, s1, now1, s2, now2);
      RulesWeightAppend(FiredUpTo(s1, now1, n - 1), BATTERY[n - 1], s1, now1);
      RulesWeightAppend(FiredUpTo(s2, now2, n - 1), BATTERY[n - 1], s2, now2);
    }
  }

  /**
   * Monotonicity: a pair that triggers every rule another pair triggers (and maybe
   * more) scores a total weight and a percentage at least as high.
   */
  lemma TriggeredMonotone(s1: PairStats, now1: real, s2: PairStats, now2: real)
    requires forall id :: Fires(id, s1, now1) ==> Fires(id, s2, now2)
    ensures TotalWeight(Triggered(s1, now1)) <= TotalWeight(Triggered(s2, now2))
    ensures RiskPercentage(Triggered(s1, now1)) <= RiskPercentage(Triggered(s2, now2))
  {
    FiredUpToMonotone(|BATTERY|, s1, now1, s2, now2);
    TriggeredWeight(s1, now1);
    TriggeredWeight(s2, now2);
  }

  lemma {:induction false} FiredUpToWeightBound(s: PairStats, now: real, skipped: RuleId, n: nat)
    requires n <= |BATTERY|
    requires !Fires(skipped, s, now)
    ensures RulesWeight(FiredUpTo(s, now, n)) + (if Position(skipped) < n then Weight(skipped) else 0)
      <= RulesWeight(BATTERY[..n])
  {
    if n > 0 {
      var id := BATTERY[n - 1];
      FiredUpToWeightBound(s, now, skipped, n - 1);
      RulesWeightAppend(FiredUpTo(s, now, n - 1), id, s, now);
      assert BATTERY[..n] == BATTERY[..n - 1] + [id];
      RulesWeightSnoc(BATTERY[..n - 1], id);
      BatteryComplete(skipped);
      if Position(skipped) == n - 1 {
        assert id == skipped;
      }
    }
  }

  /**
   * The eleven weights sum to 160, but the two liquidity rules exclude each other,
   * so no pair scores a total above 155.
   */
  lemma TotalWeightAtMost155(s: PairStats, now: real)
    ensures TotalWeight(Triggered(s, now)) <= 155
  {
    BatteryWeight();
    var skipped := if Fires(LowLiquidity, s, now) then VeryLowLiquidity else LowLiquidity;
    LiquidityRulesExclusive(s, now);
    FiredUpToWeightBound(s, now, skipped, |BATTERY|);
    assert BATTERY[..|BATTERY|] == BATTERY;
    TriggeredWeight(s, now);
  }
}
