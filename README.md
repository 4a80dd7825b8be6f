# Honeypot risk scorer

A model of the scoring core of the memecoin honeypot detector: `is_honeypot`
and its helper `calculate_risk_percentage` in `HoneypotDetector.py`.

The detector receives a token record from a market-data provider and returns
a pair: an alert text, or nothing, and a risk percentage.

- A record without trading pairs gets a fixed alert and risk 100.
- Otherwise the first pair's fields are read. Every missing key reads as 0, or
  as an empty `info` object.
- Eleven threshold rules are then checked in a fixed order. Each rule that
  fires inserts its description, with its weight, into an ordered mapping.
- The percentage is the sum of the weights, clamped at 100.
- If any rule fired, the alert lists the descriptions one per line, between a
  two-line header and a line giving the percentage with two decimals.
  If none fired, the result is `(None, 0)`.

Modules:

- `Wrappers` (`wrappers.dfy`): the `Option` type.
- `TokenRecord` (`token_record.dfy`): the record as received, with absent keys
  as `None`. `Extract` reads the scored fields with their defaults, converting
  the creation time from milliseconds to seconds.
- `RiskScore` (`risk_score.dfy`): the risk-factor mapping as a sequence of
  (description, weight) entries in insertion order, and the clamped percentage.
- `RiskRules` (`risk_rules.dfy`): the thresholds, the eleven rules as a table
  (`Fires`, `Description`, `Weight`), and `Fired`, the rules that fire, in
  evaluation order. This is the specification the checks are proved against.
- `Text` (`text.dfy`): joining lines with newlines and splitting them back, and
  the decimal numeral of a whole number.
- `HoneypotDetector` (`honeypot_detector.dfy`): `Assess`, the verdict as a
  function, and the methods `CheckCriteria` (the eleven successive checks,
  appending to a sequence) and `IsHoneypot` (the whole procedure).
  `IsHoneypot` is proved equal to `Assess`.

The current time is a parameter `now`, in seconds. Prices, liquidity, market
cap and times are exact reals.

## Model

| member | source | states |
|---|---|---|
| RiskScore.TotalWeight | HoneypotDetector.py:16 | The sum of the mapping's weights; `RiskRules.FactorsWeight` and `RiskRules.TriggeredWeight` equate it with the weight of the rules that fire |
| TokenRecord.HasNoPairs | HoneypotDetector.py:22-23 | An absent or empty pair list; `HoneypotDetector.Assess` gives the fixed alert with risk 100 exactly then |
| TokenRecord.Extract | HoneypotDetector.py:27-40 | The scored fields of a pair with their defaults; characterised by `ExtractEmptyPair`, `ExtractComplete`, `InfoAbsentIsEmpty` and `AbsentWindowIsZero` |
| RiskRules.BuySellAlarm | HoneypotDetector.py:64-71 | The guarded ratio test; characterised by `BuySellAlarmCrossMultiplied` and `NoSellsAlarm` |
| RiskRules.Fires | HoneypotDetector.py:58-89 | The condition of each of the eleven rules; its relations are `RatioRulesOnIntegers`, `LiquidityRulesExclusive` and `RuleImplications` |
| RiskRules.Fired | HoneypotDetector.py:55-89 | The rules that fire, in evaluation order; `FiredSpec` proves membership iff the condition holds and the order, `CheckCriteria` is proved equal to it |
| RiskRules.Triggered | HoneypotDetector.py:55-89 | The description-to-weight mapping the checks build; `TriggeredSpec` proves distinct keys and positive weights, `TriggeredWeight` its total |
| RiskRules.Description | HoneypotDetector.py:59-89 | The eleven keys inserted into the mapping; `DescriptionsDistinct` proves them pairwise different and `DescriptionSingleLine` free of newlines |
| RiskRules.Weight | HoneypotDetector.py:59-89 | The eleven values inserted into the mapping; `BatteryWeight` proves they add up to 160 |
| RiskRules.Factors | HoneypotDetector.py:55-89 | One entry per recorded rule, in the same order, each the rule's key and weight; `FactorsDistinct` proves the keys distinct and `FactorsWeight` the total |
| RiskScore.Descriptions | HoneypotDetector.py:93 | The mapping's keys in insertion order, one per entry; `HoneypotDetector.ExplanationLines` proves they are the alert's middle lines |
| Text.JoinLines | HoneypotDetector.py:93 | The descriptions joined by newlines; `SplitJoin` proves that splitting gives single-line strings back |
| Text.FixedTwoDecimals | HoneypotDetector.py:94 | A whole number with two decimals contains no newline; `DecimalRoundTrip` proves its digits read back as the number |
| HoneypotDetector.PercentageLine | HoneypotDetector.py:94 | The last alert line; `PercentageLineShowsRisk` proves its numeral is the risk percentage |
| HoneypotDetector.Explanation | HoneypotDetector.py:92-94 | The alert text; `ExplanationLines` and `AlertLines` prove its lines are the header, the descriptions in order and the percentage line |
| RiskScore.RiskPercentage | HoneypotDetector.py:14-19 | The percentage lies in [0, 100], equals the summed weight clamped at 100, and is a whole number |
| RiskScore.RiskPercentageGrows | HoneypotDetector.py:14-19 | Inserting one more factor adds its weight to the total and never lowers the percentage |
| RiskScore.RiskPercentageMonotone | HoneypotDetector.py:14-19 | A larger total weight never gives a smaller percentage |
| RiskScore.RiskPercentagePositive | HoneypotDetector.py:14-19 | A non-empty mapping of positive weights has a positive percentage |
| TokenRecord.ExtractEmptyPair | HoneypotDetector.py:27-40 | A pair with every key absent reads as zero counts, zero price change, liquidity, creation time and market cap, and no info |
| TokenRecord.ExtractComplete | HoneypotDetector.py:27-40 | Fields that are present are read unchanged; the creation time is divided by 1000 |
| TokenRecord.InfoAbsentIsEmpty | HoneypotDetector.py:40 | An absent `info` key and an empty `info` object give the same fields, both without info |
| TokenRecord.AbsentWindowIsZero | HoneypotDetector.py:27-35 | An absent `txns` object, an absent window and an empty window all read as zero buys and sells |
| RiskRules.BatteryComplete | HoneypotDetector.py:57-89 | Every rule appears in the evaluation order at its own position |
| RiskRules.BatteryWeight | HoneypotDetector.py:58-89 | The eleven weights add up to 160 |
| RiskRules.DescriptionsDistinct | HoneypotDetector.py:58-89 | Two different rules have different descriptions, so no insertion overwrites an earlier entry |
| RiskRules.DescriptionSingleLine | HoneypotDetector.py:58-89 | No description contains a newline |
| RiskRules.BuySellAlarmCrossMultiplied | HoneypotDetector.py:64-71 | The ratio test equals a division-free test: no sells and some buys, or buys above threshold times sells |
| RiskRules.RatioRulesOnIntegers | HoneypotDetector.py:64-71 | The 2.2, 2.3 and 2.5 ratio rules fire exactly when 10·buys > 22·sells, 10·buys > 23·sells and 2·buys > 5·sells, or when there are buys and no sells |
| RiskRules.NoSellsAlarm | HoneypotDetector.py:64-71 | With no sells, a ratio rule fires exactly when there are buys, so zero buys and zero sells fire nothing |
| RiskRules.LiquidityRulesExclusive | HoneypotDetector.py:76-80 | The low and very-low liquidity rules never both fire; liquidity of exactly 1000 or 10000 fires neither |
| RiskRules.RuleImplications | HoneypotDetector.py:58-89 | The young high-cap rule implies the recent rule, and high cap with surge implies surge. No info always fires the weight-5 rule, and with market cap over 100 million also the weight-25 rule |
| RiskRules.FiredUpToMembers | HoneypotDetector.py:57-89 | After the first n checks, a rule is recorded exactly when it is among them and its condition holds |
| RiskRules.FiredUpToInOrder | HoneypotDetector.py:57-89 | After the first n checks, the recorded rules are in strictly increasing evaluation order and all among the first n |
| RiskRules.FiredUnrolled | HoneypotDetector.py:55-89 | The table-driven filter equals eleven successive conditional appends to an initially empty sequence |
| RiskRules.FiredSpec | HoneypotDetector.py:55-89 | A rule is recorded exactly when its condition holds, and the records are in evaluation order |
| RiskRules.FactorsDistinct | HoneypotDetector.py:58-89 | Entries recorded in evaluation order have pairwise different descriptions |
| RiskRules.TriggeredSpec | HoneypotDetector.py:55-89 | The mapping lists each triggered description exactly once, with a positive weight |
| RiskRules.FactorsWeight | HoneypotDetector.py:16 | The summed weight of the entries is the summed weight of the recorded rules |
| RiskRules.TriggeredWeight | HoneypotDetector.py:16 | The summed weight of the mapping is the weight of the rules that fire |
| RiskRules.TriggeredMonotone | HoneypotDetector.py:55-90 | A pair that fires every rule another pair fires has at least the same total weight and percentage |
| RiskRules.FiredUpToWeightBound | HoneypotDetector.py:57-89 | When one rule does not fire, the recorded weight plus that rule's weight is at most the weight of all rules checked |
| RiskRules.TotalWeightAtMost155 | HoneypotDetector.py:58-90 | Because the two liquidity rules are exclusive, the summed weight never exceeds 155 |
| Text.SplitJoin | HoneypotDetector.py:93 | Joining single-line strings with newlines and splitting at newlines gives the strings back |
| Text.DecimalRoundTrip | HoneypotDetector.py:94 | The decimal numeral of a whole number reads back as that number |
| HoneypotDetector.Assess | HoneypotDetector.py:21-96 | No pairs gives the fixed alert with risk 100. The risk is always in [0, 100]; there is no alert exactly when the risk is 0, and exactly when no rule fires on the first pair |
| HoneypotDetector.AssessRisk | HoneypotDetector.py:90 | For a record with pairs, the risk is the summed weight of the rules that fire on the first pair, clamped at 100 |
| HoneypotDetector.CheckCriteria | HoneypotDetector.py:55-89 | The eleven checks, each appending its rule when its condition holds, record exactly the rules that fire, in evaluation order |
| HoneypotDetector.IsHoneypot | HoneypotDetector.py:21-96 | The procedure returns exactly the verdict `Assess` specifies |
| HoneypotDetector.PercentageLineShowsRisk | HoneypotDetector.py:94 | The last alert line is the prefix, a numeral whose value is the risk percentage, ".00" and "%", with no newline |
| HoneypotDetector.ExplanationLines | HoneypotDetector.py:92-94 | Split at newlines, an alert is the header, the factors line, each description in insertion order, and the percentage line |
| HoneypotDetector.AlertLines | HoneypotDetector.py:92-94 | For a record with pairs, the alert's lines are the two header lines, the descriptions of the triggered rules in evaluation order, and the percentage line |
| HoneypotDetector.AssessFirstPairOnly | HoneypotDetector.py:26 | Two records whose first pairs read the same get the same verdict, whatever their other pairs |
| HoneypotDetector.AssessMonotone | HoneypotDetector.py:55-90 | A record whose first pair fires every rule another's fires scores at least as high |
| HoneypotDetector.EmptyPairFired | HoneypotDetector.py:27-89 | A pair with every key absent fires recent pair, very low liquidity and no info before two hours, and only the last two from then on |
| HoneypotDetector.EmptyPairRulesWeight | HoneypotDetector.py:62-89 | Those rule lists weigh 20 and 15 |
| HoneypotDetector.EmptyPairRisk | HoneypotDetector.py:21-96 | A record whose only pair has every key absent scores 20 before two hours and 15 from then on |
| HoneypotDetector.HotPairFired | HoneypotDetector.py:58-89 | A young, large, buy-only, surging pair with liquidity 500 and no info fires every rule but low liquidity |
| HoneypotDetector.HotRulesWeight | HoneypotDetector.py:58-89 | Those ten rules weigh 155, the largest total possible |
| HoneypotDetector.HotPairScenario | HoneypotDetector.py:21-96 | That pair's total is 155, and its record is flagged with the percentage clamped to exactly 100 |

## Left out

- `get_memecoin_info` (`HoneypotDetector.py:4-12`) is network I/O, an HTTP request and JSON decoding. Its result is the input record `TokenInfo`.
- The command-line block (`HoneypotDetector.py:98-109`) is console input and output.
- `utils.py` is not part of this model. It derives wallet keys through foreign cryptographic libraries and is unrelated to scoring.
- The clock: the source reads the current time twice (lines 58 and 61). The model takes one instant `now` for both reads.
- Floating point: ratios, the milliseconds-to-seconds division and `(total / 100) * 100` are exact real arithmetic. IEEE rounding is not modelled.
- `HoneypotDetector.PercentageLine` renders `:.2f` as the digits of a whole number followed by ".00". This is exact because the percentage is always a whole number here.
- Malformed records are not modelled. `null` for `pairs` or `info` reads like an absent key and is modelled by `None`: no pairs gives the fixed alert, and no info fires the no-info rules. `null` for any other scored key, or a value of the wrong type, raises a `TypeError` or `AttributeError`; the model reads every present value with its intended type. `info` is modelled by its set of keys.
- Every risk is a real number in the model. The source returns the integers 100 and 0 for no pairs and for "not a honeypot". It also returns the integer 100 when the total exceeds 100, because `min` at line 19 then returns its integer argument. Elsewhere it returns a float.
- `HoneypotDetector.CheckCriteria` records rule identifiers. The mapping entry each fired rule inserts is `Factor(rule)`, built by `Factors` after the checks. Dictionary insertion is modelled as appending; `RiskRules.DescriptionsDistinct` shows that no key is inserted twice.
