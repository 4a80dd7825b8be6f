/**
 * The honeypot check (`is_honeypot`): the verdict for a token record, built by
 * evaluating the rule battery on the record's first trading pair.
 */
module HoneypotDetector {
  import opened Wrappers
  import opened TokenRecord
  import opened RiskScore
  import opened RiskRules
  import opened Text

  const NO_PAIRS_ALERT := "Alert: No pairs found for this token."
  const HEADER_LINE := "Alert: The token may be a honeypot."
  const FACTORS_LINE := "Risk factors:"
  const PERCENTAGE_PREFIX := "Risk percentage: "

  /** The result pair: the alert text (`None` for "not a honeypot") and the risk percentage. */
  datatype Assessment = Assessment(alert: Option<string>, risk: real)

  /** The last line of an alert: the percentage with two decimals. */
  function PercentageLine(fs: seq<RiskFactor>): string {
    PERCENTAGE_PREFIX + FixedTwoDecimals(RiskPercentage(fs).Floor as nat) + "%"
  }

  /** The alert text for a non-empty factor mapping. */
  function Explanation(fs: seq<RiskFactor>): string {
    HEADER_LINE + "\n" + FACTORS_LINE + "\n" + JoinLines(Descriptions(fs)) + "\n" + PercentageLine(fs)
  }

  /**
   * The verdict on a token record at time `now` (seconds), as a function: no pairs
   * is maximal risk; otherwise the factors the first pair triggers, or `(None, 0)`.
   */
  function Assess(token: TokenInfo, now: real): (r: Assessment)
    ensures HasNoPairs(token) ==> r == Assessment(Some(NO_PAIRS_ALERT), 100.0)
    ensures 0.0 <= r.risk <= 100.0
    ensures r.alert.None? <==> r.risk == 0.0
    ensures !HasNoPairs(token) ==>
      (r.alert.None? <==> Fired(Extract(token.pairs.value[0]), now) == [])
  {
    var pairs := token.pairs.GetOr([]);
    if pairs == [] then Assessment(Some(NO_PAIRS_ALERT), 100.0)
    else
      var fs := Triggered(Extract(pairs[0]), now);
      if fs != [] then Assessment(Some(Explanation(fs)), RiskPercentage(fs))
      else Assessment(None, 0.0)
  }

  /**
   * The eleven checks of `is_honeypot`, in order. Each check whose condition holds
   * on the pair's fields records its rule; the entry the rule inserts into the
   * mapping is `Factor(rule)`.
   */
  method CheckCriteria(pair: PairStats, now: real) returns (fired: seq<RuleId>)
    ensures fired == Fired(pair, now)
  {
    var txns24h, txns6h, txns1h := pair.txns24h, pair.txns6h, pair.txns1h;
    fired := [];
    if now - pair.createdAt < VERY_RECENT_PAIR_THRESHOLD && pair.marketCap > MARKET_CAP_THRESHOLD_LOW {
      fired := fired + [YoungHighCap];
    }
    if now - pair.createdAt < RECENT_PAIR_THRESHOLD {
      fired := fired + [RecentPair];
    }
    if BuySellAlarm(txns24h, RATIO_THRESHOLD_24H) {
      fired := fired + [HighRatio24h];
    }
    if BuySellAlarm(txns6h, RATIO_THRESHOLD_6H) {
      fired := fired + [HighRatio6h];
    }
    if BuySellAlarm(txns1h, RATIO_THRESHOLD_1H) {
      fired := fired + [HighRatio1h];
    }
    if pair.priceChange24h > PRICE_CHANGE_THRESHOLD {
      fired := fired + [PriceSurge];
    }
    if pair.liquidityUsd < MIN_LIQUIDITY_THRESHOLD && pair.liquidityUsd > VERY_MIN_LIQUIDITY {
      fired := fired + [LowLiquidity];
    }
    if pair.liquidityUsd < VERY_MIN_LIQUIDITY {
      fired := fired + [VeryLowLiquidity];
    }
    if pair.marketCap > MARKET_CAP_THRESHOLD_HIGH && pair.priceChange24h > PRICE_CHANGE_MARKET_CAP_THRESHOLD {
      fired := fired + [HighCapPriceSurge];
    }
    if pair.marketCap > MARKET_CAP_THRESHOLD_LOW && !pair.hasInfo {
      fired := fired + [HighCapNoInfo];
    }
    if !pair.hasInfo {
      fired := fired + [NoInfo];
    }
    FiredUnrolled(pair, now);
  }

  /**
   * `is_honeypot`: takes the first pair's fields, runs the checks, builds the
   * mapping and reports.
   */
  method IsHoneypot(token: TokenInfo, now: real) returns (alert: Option<string>, risk: real)
    ensures Assessment(alert, risk) == Assess(token, now)
  {
    var pairs := token.pairs.GetOr([]);
    if pairs == [] {
      return Some(NO_PAIRS_ALERT), 100.0;
    }
    var pair := Extract(pairs[0]);
    var fired := CheckCriteria(pair, now);
    var factors := Factors(fired);
    risk := RiskPercentage(factors);

    if factors != [] {
      alert := Some(Explanation(factors));
    } else {
      alert, risk := None, 0.0;
    }
  }

  // ---------------------------------------------------------------------------
  // Properties of the verdict

  /** The fixed parts of an alert contain no newline. */
  lemma FixedTextsSingleLine()
    ensures '\n' !in HEADER_LINE && '\n' !in FACTORS_LINE && '\n' !in PERCENTAGE_PREFIX
  {
  }

  /** The percentage line is one line, and its numeral reads back as the risk percentage. */
  lemma PercentageLineShowsRisk(fs: seq<RiskFactor>)
    ensures var digits := NatToString(RiskPercentage(fs).Floor as nat);
      && PercentageLine(fs) == PERCENTAGE_PREFIX + digits + ".00%"
      && DecimalValue(digits) as real == RiskPercentage(fs)
    ensures '\n' !in PercentageLine(fs)
  {
    var p := RiskPercentage(fs).Floor as nat;
    DecimalRoundTrip(p);
    FixedTextsSingleLine();
    assert PercentageLine(fs) == PERCENTAGE_PREFIX + NatToString(p) + ".00%";
  }

  /**
   * An alert built from single-line descriptions reads, line by line: the header,
   * "Risk factors:", each description in insertion order, the percentage.
   */
  lemma ExplanationLines(fs: seq<RiskFactor>)
    requires fs != []
    requires SingleLines(Descriptions(fs))
    ensures SplitLines(Explanation(fs)) == [HEADER_LINE, FACTORS_LINE] + Descriptions(fs) + [PercentageLine(fs)]
  {
    FixedTextsSingleLine();
    PercentageLineShowsRisk(fs);
    SplitFramed(HEADER_LINE, FACTORS_LINE, Descriptions(fs), PercentageLine(fs));
  }

  /**
   * The alert for a record with pairs lists the triggered descriptions one per
   * line, between the two header lines and the percentage line.
   */
  lemma AlertLines(token: TokenInfo, now: real)
    requires !HasNoPairs(token)
    requires Assess(token, now).alert.Some?
    ensures var fs := Triggered(Extract(token.pairs.value[0]), now);
      SplitLines(Assess(token, now).alert.value) == [HEADER_LINE, FACTORS_LINE] + Descriptions(fs) + [PercentageLine(fs)]
  {
    var s := Extract(token.pairs.value[0]);
    var ids, fs := Fired(s, now), Triggered(s, now);
    forall i | 0 <= i < |fs| ensures '\n' !in Descriptions(fs)[i] {
      DescriptionSingleLine(ids[i]);
    }
    ExplanationLines(fs);
  }

  /** The risk of a record with pairs is the weight of the rules its first pair fires, clamped at 100. */
  lemma AssessRisk(token: TokenInfo, now: real)
    requires !HasNoPairs(token)
    ensures var w := RulesWeight(Fired(Extract(token.pairs.value[0]), now));
      Assess(token, now).risk == (if w <= 100 then w else 100) as real
  {
    TriggeredWeight(Extract(token.pairs.value[0]), now);
  }

  /** Only the first pair of the record is scored. */
  lemma AssessFirstPairOnly(t1: TokenInfo, t2: TokenInfo, now: real)
    requires !HasNoPairs(t1) && !HasNoPairs(t2)
    requires Extract(t1.pairs.value[0]) == Extract(t2.pairs.value[0])
    ensures Assess(t1, now) == Assess(t2, now)
  {
  }

  /** A record whose first pair triggers every rule another's does scores at least as high. */
  lemma AssessMonotone(t1: TokenInfo, now1: real, t2: TokenInfo, now2: real)
    requires !HasNoPairs(t1) && !HasNoPairs(t2)
    requires forall id :: Fires(id, Extract(t1.pairs.value[0]), now1) ==> Fires(id, Extract(t2.pairs.value[0]), now2)
    ensures Assess(t1, now1).risk <= Assess(t2, now2).risk
  {
    var s1, s2 := Extract(t1.pairs.value[0]), Extract(t2.pairs.value[0]);
    TriggeredMonotone(s1, now1, s2, now2);
    TriggeredSpec(s2, now2);
  }

  /**
   * A pair with every key absent (created at the epoch, no liquidity, no info):
   * recent before two hours, then only very low liquidity and missing info.
   */
  lemma EmptyPairFired(now: real)
    ensures Fired(Extract(EMPTY_PAIR), now) ==
      if now < RECENT_PAIR_THRESHOLD then [RecentPair, VeryLowLiquidity, NoInfo] else [VeryLowLiquidity, NoInfo]
  {
    ExtractEmptyPair();
    FiredUnrolled(Extract(EMPTY_PAIR), now);
  }

  lemma EmptyPairRulesWeight()
    ensures RulesWeight([VeryLowLiquidity, NoInfo]) == 15
    ensures RulesWeight([RecentPair, VeryLowLiquidity, NoInfo]) == 20
  {
    var late, early := [VeryLowLiquidity, NoInfo], [RecentPair, VeryLowLiquidity, NoInfo];
    assert late[..1][..0] == early[..1][..0] == [];
    assert late[..1] == [VeryLowLiquidity] && early[..2][..1] == [RecentPair];
    assert early[..2] == [RecentPair, VeryLowLiquidity];
  }

  /** The empty pair scores 20 while recent and 15 afterwards. */
  lemma EmptyPairRisk(now: real)
    ensures Assess(TokenInfo(Some([EMPTY_PAIR])), now).risk == if now < RECENT_PAIR_THRESHOLD then 20.0 else 15.0
  {
    EmptyPairFired(now);
    EmptyPairRulesWeight();
    TriggeredWeight(Extract(EMPTY_PAIR), now);
  }

  /** A young, large, buy-only, surging pair with very low liquidity and no info. */
  const HOT_PAIR := PairStats(Window(10, 0), Window(10, 0), Window(10, 0), 200000.0, 500.0, 0.0, 300000000.0, false)

  /** The rules `HOT_PAIR` triggers at creation time: all but low liquidity. */
  const HOT_RULES := [YoungHighCap, RecentPair, HighRatio24h, HighRatio6h, HighRatio1h,
    PriceSurge, VeryLowLiquidity, HighCapPriceSurge, HighCapNoInfo, NoInfo]

  lemma HotPairFired()
    ensures Fired(HOT_PAIR, 0.0) == HOT_RULES
  {
    FiredUnrolled(HOT_PAIR, 0.0);
  }

  /** Every rule but the lightest fires: the total reaches the bound of 155. */
  lemma HotRulesWeight()
    ensures RulesWeight(HOT_RULES) == 155
  {
    var ids := HOT_RULES;
    forall k | 1 <= k <= |ids| ensures ids[..k][..k - 1] == ids[..k - 1] {
    }
    assert RulesWeight(ids[..1]) == 30;
    assert RulesWeight(ids[..2]) == 35;
    assert RulesWeight(ids[..3]) == 55;
    assert RulesWeight(ids[..4]) == 70;
    assert RulesWeight(ids[..5]) == 80;
    assert RulesWeight(ids[..6]) == 95;
    assert RulesWeight(ids[..7]) == 105;
    assert RulesWeight(ids[..8]) == 125;
    assert RulesWeight(ids[..9]) == 150;
    assert ids[..10] == ids;
  }

  /** A record whose pair is `HOT_PAIR` is flagged at creation time with the percentage capped at 100. */
  lemma HotPairScenario()
    ensures TotalWeight(Triggered(HOT_PAIR, 0.0)) == 155
    ensures Assess(TokenInfo(Some([Complete(HOT_PAIR)])), 0.0) ==
      Assessment(Some(Explanation(Triggered(HOT_PAIR, 0.0))), 100.0)
  {
    HotPairFired();
    HotRulesWeight();
    TriggeredWeight(HOT_PAIR, 0.0);
    ExtractComplete(HOT_PAIR);
  }
}
