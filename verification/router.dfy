/** The simulated venue router (dex/mock-router.ts): two venues are asked for
    a quote, the better price wins, and execution perturbs the expected price.
    Every `Math.random()` draw is a parameter. */
module MockRouter {
  import opened Types
  import Config

  /** Relative spread of the executed price around the expected price. */
  const ExecutionVariance: real := 0.002

  /** Hex digits kept from the hash draw: `substring(2, 66)`. */
  const HashDigitsKept: nat := 64

  function Min(a: int, b: int): int { if a <= b then a else b }

  /** The lookup key of a pair, `tokenIn + "-" + tokenOut`. */
  function Pair(tokenIn: string, tokenOut: string): string {
    tokenIn + "-" + tokenOut
  }

  /** The base price table, with the fallback `1` for a pair it does not know. */
  function BasePriceForPair(tokenIn: string, tokenOut: string): (p: real)
    ensures p > 0.0
  {
    var pair := Pair(tokenIn, tokenOut);
    if pair == "SOL-USDC" then 100.0
    else if pair == "SOL-USDT" then 100.0
    else if pair == "ETH-USDC" then 2500.0
    else if pair == "BTC-USDC" then 45000.0
    else 1.0
  }

  /** In `c + "-" + d` with dash-free `c` and `d`, the only dash is the separator. */
  lemma OnlyDashIsSeparator(c: string, d: string, i: nat)
    requires '-' !in c && '-' !in d
    requires i < |c| + 1 + |d| && (c + "-" + d)[i] == '-'
    ensures i == |c|
  {
  }

  /** A pair key built from dash-free tokens determines both tokens. */
  lemma PairSplit(a: string, b: string, c: string, d: string)
    requires '-' !in c && '-' !in d
    requires Pair(a, b) == Pair(c, d)
    ensures a == c && b == d
  {
    var s := Pair(a, b);
    assert s[|a|] == '-';
    OnlyDashIsSeparator(c, d, |a|);
    assert a == s[..|a|] && c == s[..|c|];
    assert b == s[|a| + 1..] && d == s[|c| + 1..];
  }

  /** The table read per token rather than per key: only the four listed
      pairs have a price of their own, whatever characters the tokens hold. */
  lemma BasePriceByTokens(tokenIn: string, tokenOut: string)
    ensures BasePriceForPair(tokenIn, tokenOut) ==
      if tokenIn == "SOL" && (tokenOut == "USDC" || tokenOut == "USDT") then 100.0
      else if tokenIn == "ETH" && tokenOut == "USDC" then 2500.0
      else if tokenIn == "BTC" && tokenOut == "USDC" then 45000.0
      else 1.0
  {
    var p := Pair(tokenIn, tokenOut);
    assert Pair("SOL", "USDC") == "SOL-USDC";
    assert Pair("SOL", "USDT") == "SOL-USDT";
    assert Pair("ETH", "USDC") == "ETH-USDC";
    assert Pair("BTC", "USDC") == "BTC-USDC";
    if p == "SOL-USDC" {
      PairSplit(tokenIn, tokenOut, "SOL", "USDC");
    } else if p == "SOL-USDT" {
      PairSplit(tokenIn, tokenOut, "SOL", "USDT");
    } else if p == "ETH-USDC" {
      PairSplit(tokenIn, tokenOut, "ETH", "USDC");
    } else if p == "BTC-USDC" {
      PairSplit(tokenIn, tokenOut, "BTC", "USDC");
    }
  }

  /** `(Math.random() * 2 - 1) * PRICE_VARIANCE` for the draw `r`. */
  function QuoteVariance(r: real): (v: real)
    ensures 0.0 <= r < 1.0 ==> -Config.PriceVariance <= v < Config.PriceVariance
  {
    (r * 2.0 - 1.0) * Config.PriceVariance
  }

  /** `x * (1 + v)`: `x` moved by the relative variance `v`. When `v` lies in
      `[-w, w)` for `w < 1`, the result stays within `[x * (1 - w), x * (1 + w))`. */
  function Perturb(x: real, v: real, w: real): (p: real)
    ensures x >= 0.0 && -w <= v < w && w < 1.0 ==>
      && x * (1.0 - w) <= p <= x * (1.0 + w)
      && (x > 0.0 ==> 0.0 < p < x * (1.0 + w))
  {
    assert x * (1.0 + v) - x * (1.0 - w) == x * (v + w);
    assert x * (1.0 + w) - x * (1.0 + v) == x * (w - v);
    assert x * (1.0 - w) == x - x * w;
    x * (1.0 + v)
  }

  /** One venue's quote: base price times amount, perturbed by the draw `r`;
      `latency` is the measured wait, supplied from outside. */
  function FetchQuote(provider: DexProvider, tokenIn: string, tokenOut: string, amount: real,
                      r: real, latency: int): (q: DexQuote)
    ensures q.provider == provider && q.latency == latency
    ensures 0.0 <= r < 1.0 && amount >= 0.0 ==>
      var nominal := BasePriceForPair(tokenIn, tokenOut) * amount;
      && nominal * (1.0 - Config.PriceVariance) <= q.price <= nominal * (1.0 + Config.PriceVariance)
      && (amount > 0.0 ==> 0.0 < q.price < nominal * (1.0 + Config.PriceVariance))
  {
    var basePrice := BasePriceForPair(tokenIn, tokenOut);
    var variance := QuoteVariance(r);
    var price := Perturb(basePrice * amount, variance, Config.PriceVariance);
    DexQuote(provider, price, latency)
  }

  /** The random inputs of one `getBestQuote` call. */
  datatype QuoteDraws = QuoteDraws(raydium: real, meteora: real, raydiumLatency: int, meteoraLatency: int)

  predicate ValidQuoteDraws(d: QuoteDraws) {
    0.0 <= d.raydium < 1.0 && 0.0 <= d.meteora < 1.0
  }

  /** Ask both venues and keep the strictly better price; a tie goes to meteora. */
  function GetBestQuote(tokenIn: string, tokenOut: string, amount: real, d: QuoteDraws): (q: DexQuote)
    ensures
      var ray := FetchQuote(Raydium, tokenIn, tokenOut, amount, d.raydium, d.raydiumLatency);
      var met := FetchQuote(Meteora, tokenIn, tokenOut, amount, d.meteora, d.meteoraLatency);
      && (q == ray || q == met)
      && (q.provider == Raydium <==> ray.price > met.price)
      && q.price >= ray.price && q.price >= met.price
  {
    var raydiumQuote := FetchQuote(Raydium, tokenIn, tokenOut, amount, d.raydium, d.raydiumLatency);
    var meteoraQuote := FetchQuote(Meteora, tokenIn, tokenOut, amount, d.meteora, d.meteoraLatency);
    if raydiumQuote.price > meteoraQuote.price then raydiumQuote else meteoraQuote
  }

  /** On equal prices meteora is chosen, never raydium. */
  lemma TieGoesToMeteora(tokenIn: string, tokenOut: string, amount: real, d: QuoteDraws)
    requires d.raydium == d.meteora
    ensures GetBestQuote(tokenIn, tokenOut, amount, d).provider == Meteora
  {
  }

  /** The chosen quote of a valid request is positive and within the variance
      band around the nominal price. */
  lemma BestQuoteInBand(tokenIn: string, tokenOut: string, amount: real, d: QuoteDraws)
    requires ValidQuoteDraws(d) && amount > 0.0
    ensures
      var q := GetBestQuote(tokenIn, tokenOut, amount, d);
      var nominal := BasePriceForPair(tokenIn, tokenOut) * amount;
      0.0 < q.price && nominal * (1.0 - Config.PriceVariance) <= q.price < nominal * (1.0 + Config.PriceVariance)
  {
    var ray := FetchQuote(Raydium, tokenIn, tokenOut, amount, d.raydium, d.raydiumLatency);
    var met := FetchQuote(Meteora, tokenIn, tokenOut, amount, d.meteora, d.meteoraLatency);
  }

  /** `s.substring(start, end)` for `start <= end`: both ends clamp to the length. */
  function JsSubstring(s: string, start: nat, end: nat): (t: string)
    requires start <= end
    ensures |t| <= end - start
    ensures |s| >= end ==> t == s[start..end]
  {
    s[Min(start, |s|)..Min(end, |s|)]
  }

  /** The random inputs of one `executeOrder` call: the text of a draw printed
      in base 16 (`Math.random().toString(16)`), and the slippage draw. */
  datatype ExecDraws = ExecDraws(hashText: string, slip: real)

  datatype Execution = Execution(txHash: string, executedPrice: real)

  /** `(Math.random() * 2 - 1) * 0.002` for the draw `r`. */
  function SlipVariance(r: real): (v: real)
    ensures 0.0 <= r < 1.0 ==> -ExecutionVariance <= v < ExecutionVariance
  {
    (r * 2.0 - 1.0) * ExecutionVariance
  }

  /** Simulated execution on `provider`. The venue, the pair and the amount
      only reach the log; the hash is `0x` plus at most 64 characters of the
      hash draw's text, and the executed price is the expected one perturbed
      by at most 0.2%. */
  function ExecuteOrder(provider: DexProvider, tokenIn: string, tokenOut: string, amount: real,
                        expectedPrice: real, d: ExecDraws): (x: Execution)
    ensures 2 <= |x.txHash| <= 2 + HashDigitsKept && x.txHash[..2] == "0x"
    ensures 0.0 <= d.slip < 1.0 && expectedPrice >= 0.0 ==>
      expectedPrice * (1.0 - ExecutionVariance) <= x.executedPrice <= expectedPrice * (1.0 + ExecutionVariance)
  {
    var txHash := "0x" + JsSubstring(d.hashText, 2, 2 + HashDigitsKept);
    var slippageVariance := SlipVariance(d.slip);
    var executedPrice := Perturb(expectedPrice, slippageVariance, ExecutionVariance);
    Execution(txHash, executedPrice)
  }

  /** For a draw printed as `0.` followed by digits, the hash is `0x` and the
      first (at most 64) of those digits. */
  lemma HashKeepsDrawDigits(provider: DexProvider, tokenIn: string, tokenOut: string, amount: real,
                            expectedPrice: real, digits: string, slip: real)
    ensures
      var x := ExecuteOrder(provider, tokenIn, tokenOut, amount, expectedPrice, ExecDraws("0." + digits, slip));
      x.txHash == "0x" + digits[..Min(HashDigitsKept, |digits|)]
  {
    var s := "0." + digits;
    assert s[2..Min(2 + HashDigitsKept, |s|)] == digits[..Min(HashDigitsKept, |digits|)];
  }

  /** A draw printed with few digits gives a short hash: the hash is not
      always 64 hex digits long. */
  lemma ShortHashExample()
    ensures ExecuteOrder(Raydium, "SOL", "USDC", 1.5, 150.0, ExecDraws("0.8", 0.5)).txHash == "0x8"
  {
    assert "0.8"[2..3] == "8";
  }
}
