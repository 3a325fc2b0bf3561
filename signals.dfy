/**
 * The signal ranker: per-symbol sub-scores combined into a composite,
 * classified into a recommendation with a confidence, ranked by confidence,
 * and served from a cache that is regenerated once it is older than 30 s.
 * The random sub-scores and the clock are parameters.
 */
module Signals {

  datatype Recommendation = BUY | SELL | HOLD

  /** The range of `Math.random()`. */
  type Unit = x: real | 0.0 <= x < 1.0

  datatype Scores = Scores(twitter: Unit, unusualWhales: Unit, tradingview: Unit)

  /** `timestamp` is the generation time in milliseconds. */
  datatype Signal = Signal(
    symbol: string,
    recommendation: Recommendation,
    confidence: real,
    scores: Scores,
    timestamp: int)

  const Symbols: seq<string> := ["ES", "NQ", "SPY", "QQQ", "AAPL", "NVDA"]

  /** Milliseconds a generated batch stays fresh. */
  const RefreshWindow: int := 30000

  // ---------------------------------------------------------------------------
  // Scoring one symbol

  function Composite(s: Scores): (c: real)
    ensures 0.0 <= c < 1.0
  {
    s.twitter * 0.25 + s.unusualWhales * 0.35 + s.tradingview * 0.4
  }

  /** The weights sum to one: equal sub-scores give that score back. */
  lemma WeightsSumToOne(x: Unit)
    ensures Composite(Scores(x, x, x)) == x
  {
  }

  /** The composite is monotone in every sub-score. */
  lemma CompositeMonotone(s: Scores, t: Scores)
    requires s.twitter <= t.twitter && s.unusualWhales <= t.unusualWhales && s.tradingview <= t.tradingview
    ensures Composite(s) <= Composite(t)
  {
  }

  function Classify(c: real): (r: Recommendation)
    ensures r == BUY <==> c > 0.65
    ensures r == SELL <==> c < 0.35
    ensures r == HOLD <==> 0.35 <= c <= 0.65
  {
    if c > 0.65 then BUY else if c < 0.35 then SELL else HOLD
  }

  function Abs(x: real): (r: real)
    ensures 0.0 <= r && (r == x || r == -x)
  {
    if x < 0.0 then -x else x
  }

  /** The distance of the composite from the neutral 0.5, rescaled to [0, 1]. */
  function Confidence(c: real): (k: real)
    requires 0.0 <= c <= 1.0
    ensures 0.0 <= k <= 1.0
    ensures k > 0.3 <==> Classify(c) != HOLD
  {
    Abs(c - 0.5) * 2.0
  }

  /** The signal for `symbol` given its three draws and the clock reading `now`. */
  function MakeSignal(symbol: string, scores: Scores, now: int): (r: Signal)
    ensures r.symbol == symbol && r.scores == scores && r.timestamp == now
    ensures r.recommendation == Classify(Composite(scores))
    ensures r.confidence == Confidence(Composite(scores)) && 0.0 <= r.confidence <= 1.0
    ensures r.recommendation == HOLD <==> r.confidence <= 0.3
  {
    var c := Composite(scores);
    Signal(symbol, Classify(c), Confidence(c), scores, now)
  }

  // ---------------------------------------------------------------------------
  // Ranking

  predicate SortedByConfidence(s: seq<Signal>) {
    forall i, j :: 0 <= i < j < |s| ==> s[i].confidence >= s[j].confidence
  }

  /** Inserting `x` in front of the first entry it is at least as confident as. */
  function Insert(x: Signal, s: seq<Signal>): (r: seq<Signal>)
    requires SortedByConfidence(s)
    ensures SortedByConfidence(r)
    ensures multiset(r) == multiset{x} + multiset(s)
    ensures |r| == |s| + 1 && (r[0] == x || (s != [] && r[0] == s[0]))
    decreases |s|
  {
    if s == [] || x.confidence >= s[0].confidence then
      [x] + s
    else
      assert s == [s[0]] + s[1..];
      [s[0]] + Insert(x, s[1..])
  }

  /** `sort((a, b) => b.confidence - a.confidence)`: a descending ranking. */
  function RankByConfidence(s: seq<Signal>): (r: seq<Signal>)
    ensures SortedByConfidence(r)
    ensures multiset(r) == multiset(s)
    decreases |s|
  {
    if s == [] then []
    else
      assert s == [s[0]] + s[1..];
      Insert(s[0], RankByConfidence(s[1..]))
  }

  // ---------------------------------------------------------------------------
  // generateSignals

  /** `symbols.map(...)`: one signal per symbol, in list order. */
  function ScoreAll(symbols: seq<string>, draw: string -> Scores, now: int): (r: seq<Signal>)
    ensures |r| == |symbols|
    ensures forall k :: 0 <= k < |r| ==> r[k] == MakeSignal(symbols[k], draw(symbols[k]), now)
    decreases |symbols|
  {
    if symbols == [] then []
    else [MakeSignal(symbols[0], draw(symbols[0]), now)] + ScoreAll(symbols[1..], draw, now)
  }

  /**
   * `generateSignals()` with the draws of `Math.random()` given by `draw`
   * and every `new Date()` reading `now`.
   */
  function Generate(draw: string -> Scores, now: int): (r: seq<Signal>)
    ensures SortedByConfidence(r)
    ensures multiset(r) == multiset(ScoreAll(Symbols, draw, now))
    ensures |r| == |Symbols|
  {
    var all := ScoreAll(Symbols, draw, now);
    var r := RankByConfidence(all);
    assert |r| == |multiset(r)| == |multiset(all)| == |all|;
    r
  }

  /** Every generated signal is the scoring of its own symbol's draws. */
  lemma GeneratedSignalsAreScored(draw: string -> Scores, now: int, sig: Signal)
    requires sig in Generate(draw, now)
    ensures sig.symbol in Symbols
    ensures sig == MakeSignal(sig.symbol, draw(sig.symbol), now)
  {
    var all := ScoreAll(Symbols, draw, now);
    assert sig in multiset(Generate(draw, now));
    assert sig in multiset(all);
    var k :| 0 <= k < |all| && all[k] == sig;
  }

  // ---------------------------------------------------------------------------
  // One signal per symbol

  function SymbolsOf(s: seq<Signal>): (r: seq<string>)
    ensures |r| == |s|
    ensures forall k :: 0 <= k < |s| ==> r[k] == s[k].symbol
  {
    seq(|s|, k requires 0 <= k < |s| => s[k].symbol)
  }

  lemma SymbolsOfAppend(a: seq<Signal>, b: seq<Signal>)
    ensures SymbolsOf(a + b) == SymbolsOf(a) + SymbolsOf(b)
  {
  }

  lemma SymbolsOfCons(x: Signal, s: seq<Signal>)
    ensures multiset(SymbolsOf([x] + s)) == multiset{x.symbol} + multiset(SymbolsOf(s))
  {
    SymbolsOfAppend([x], s);
    assert SymbolsOf([x]) == [x.symbol];
  }

  lemma {:induction false} InsertKeepsSymbols(x: Signal, s: seq<Signal>)
    requires SortedByConfidence(s)
    ensures multiset(SymbolsOf(Insert(x, s))) == multiset{x.symbol} + multiset(SymbolsOf(s))
    decreases |s|
  {
    if s == [] || x.confidence >= s[0].confidence {
      SymbolsOfCons(x, s);
    } else {
      assert s == [s[0]] + s[1..];
      InsertKeepsSymbols(x, s[1..]);
      SymbolsOfCons(s[0], Insert(x, s[1..]));
      SymbolsOfCons(s[0], s[1..]);
    }
  }

  /** Ranking reorders the signals and so names the same symbols, as often. */
  lemma {:induction false} RankKeepsSymbols(s: seq<Signal>)
    ensures multiset(SymbolsOf(RankByConfidence(s))) == multiset(SymbolsOf(s))
    decreases |s|
  {
    if s != [] {
      assert s == [s[0]] + s[1..];
      RankKeepsSymbols(s[1..]);
      InsertKeepsSymbols(s[0], RankByConfidence(s[1..]));
      SymbolsOfCons(s[0], s[1..]);
    }
  }

  /** A generated batch is a permutation of the symbol list: each symbol exactly once. */
  lemma GeneratedSymbols(draw: string -> Scores, now: int)
    ensures multiset(SymbolsOf(Generate(draw, now))) == multiset(Symbols)
  {
    var all := ScoreAll(Symbols, draw, now);
    assert SymbolsOf(all) == Symbols;
    RankKeepsSymbols(all);
  }

  // ---------------------------------------------------------------------------
  // GET and the module-level cache

  class Feed {
    var cache: seq<Signal>
    var lastUpdate: int

    /** The cache is the initial empty batch or a ranked batch of every symbol. */
    ghost predicate Valid()
      reads this
    {
      cache == [] ||
      (SortedByConfidence(cache) && |cache| == |Symbols| &&
       multiset(SymbolsOf(cache)) == multiset(Symbols))
    }

    /** Module load: an empty cache stamped with the load time. */
    constructor (loadTime: int)
      ensures cache == [] && lastUpdate == loadTime
      ensures Valid()
    {
      cache := [];
      lastUpdate := loadTime;
    }

    /** GET at clock reading `now`: regenerate when the batch is stale, then serve the cache. */
    method Get(now: int, draw: string -> Scores) returns (r: seq<Signal>)
      requires Valid()
      modifies this
      ensures Valid()
      ensures r == [] ||
        (SortedByConfidence(r) && |r| == |Symbols| && multiset(SymbolsOf(r)) == multiset(Symbols))
      ensures now - old(lastUpdate) > RefreshWindow ==> cache == Generate(draw, now) && lastUpdate == now
      ensures now - old(lastUpdate) <= RefreshWindow ==> cache == old(cache) && lastUpdate == old(lastUpdate)
      ensures r == cache
    {
      if now - lastUpdate > RefreshWindow {
        GeneratedSymbols(draw, now);
        cache := Generate(draw, now);
        lastUpdate := now;
      }
      r := cache;
    }
  }

  /** Every read within 30 s of module load serves the empty initial cache. */
  method ReadDuringFirstWindow(loadTime: int, now: int, draw: string -> Scores) returns (r: seq<Signal>)
    requires now - loadTime <= RefreshWindow
    ensures r == []
  {
    var feed := new Feed(loadTime);
    r := feed.Get(now, draw);
  }

  /**
   * A read that regenerates, then a read within 30 s of it: both serve the
   * same ranked batch, whatever the second read's draws would have been.
   */
  method ReadsAfterRefresh(loadTime: int, t1: int, t2: int, d1: string -> Scores, d2: string -> Scores)
    returns (first: seq<Signal>, second: seq<Signal>)
    requires t1 - loadTime > RefreshWindow
    requires t2 - t1 <= RefreshWindow
    ensures first == second
    ensures first == Generate(d1, t1)
    ensures SortedByConfidence(second) && |second| == |Symbols|
    ensures multiset(SymbolsOf(second)) == multiset(Symbols)
  {
    var feed := new Feed(loadTime);
    first := feed.Get(t1, d1);
    second := feed.Get(t2, d2);
  }
}
