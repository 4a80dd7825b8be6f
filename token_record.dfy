/**
 * The token record handed to the scorer by the market-data provider, and the
 * extraction of the scored fields from its first trading pair, every absent key
 * replaced by its default.
 */
module TokenRecord {
  import opened Wrappers

  /** The `buys`/`sells` object of one time window; `None` is an absent key. */
  datatype RawWindow = RawWindow(buys: Option<int>, sells: Option<int>)

  /** The `txns` object of a pair: one entry per window (`h24`, `h6`, `h1`). */
  datatype RawTxns = RawTxns(h24: Option<RawWindow>, h6: Option<RawWindow>, h1: Option<RawWindow>)

  /**
   * One trading pair as received. `priceChangeH24` stands for `priceChange.h24`
   * and `liquidityUsd` for `liquidity.usd`: an absent outer object and an absent
   * inner key both read as 0, so one `Option` covers both. `info` is the set of
   * keys of the `info` object, `None` when the key is absent.
   */
  datatype RawPair = RawPair(
    txns: Option<RawTxns>,
    priceChangeH24: Option<real>,
    liquidityUsd: Option<real>,
    pairCreatedAtMs: Option<real>,
    marketCap: Option<real>,
    info: Option<set<string>>)

  /** The whole response; `pairs` is `None` when the key is absent. */
  datatype TokenInfo = TokenInfo(pairs: Option<seq<RawPair>>)

  /** Buy and sell counts of one window, defaults applied. */
  datatype Window = Window(buys: int, sells: int)

  /** The fields the rules read, defaults applied; `createdAt` is in seconds. */
  datatype PairStats = PairStats(
    txns24h: Window,
    txns6h: Window,
    txns1h: Window,
    priceChange24h: real,
    liquidityUsd: real,
    createdAt: real,
    marketCap: real,
    hasInfo: bool)

  /** A pair with every key absent. */
  const EMPTY_PAIR := RawPair(None, None, None, None, None, None)

  /** True when the record has no usable pair list (absent or empty: Python's `not pairs`). */
  predicate HasNoPairs(token: TokenInfo) {
    token.pairs.None? || token.pairs.value == []
  }

  function WindowOf(w: Option<RawWindow>): Window {
    var raw := w.GetOr(RawWindow(None, None));
    Window(raw.buys.GetOr(0), raw.sells.GetOr(0))
  }

  /** Field extraction with defaults: counts 0, price change 0, liquidity 0,
      creation time 0 ms (converted to seconds), market cap 0, info `{}`. */
  function Extract(p: RawPair): PairStats {
    var txns := p.txns.GetOr(RawTxns(None, None, None));
    PairStats(
      WindowOf(txns.h24), WindowOf(txns.h6), WindowOf(txns.h1),
      p.priceChangeH24.GetOr(0.0),
      p.liquidityUsd.GetOr(0.0),
      p.pairCreatedAtMs.GetOr(0.0) / 1000.0,
      p.marketCap.GetOr(0.0),
      match p.info
      case Some(keys) => keys != {}
      case None => false)
  }

  /** A raw pair carrying every field of `s`, the creation time in milliseconds. */
  function Complete(s: PairStats): RawPair {
    var w := (x: Window) => Some(RawWindow(Some(x.buys), Some(x.sells)));
    RawPair(
      Some(RawTxns(w(s.txns24h), w(s.txns6h), w(s.txns1h))),
      Some(s.priceChange24h),
      Some(s.liquidityUsd),
      Some(s.createdAt * 1000.0),
      Some(s.marketCap),
      Some(if s.hasInfo then {"name"} else {}))
  }

  /** A pair with every key absent scores as all zeros and no info. */
  lemma ExtractEmptyPair()
    ensures Extract(EMPTY_PAIR) == PairStats(Window(0, 0), Window(0, 0), Window(0, 0), 0.0, 0.0, 0.0, 0.0, false)
  {
  }

  /** Present fields are taken as they are; milliseconds convert back to seconds. */
  lemma ExtractComplete(s: PairStats)
    ensures Extract(Complete(s)) == s
  {
  }

  /** An absent `info` key and an empty `info` object are the same signal. */
  lemma InfoAbsentIsEmpty(p: RawPair)
    requires p.info == None
    ensures Extract(p) == Extract(p.(info := Some({})))
    ensures !Extract(p).hasInfo
  {
  }

  /** An absent window, an absent `txns` object and an empty window all read as zero counts. */
  lemma AbsentWindowIsZero(p: RawPair)
    requires p.txns == None
    ensures Extract(p) == Extract(p.(txns := Some(RawTxns(Some(RawWindow(None, None)), None, None))))
    ensures Extract(p).txns24h == Extract(p).txns6h == Extract(p).txns1h == Window(0, 0)
  {
  }
}
