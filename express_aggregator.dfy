/** The Express spot-price aggregator (server.js): every configured provider
    is asked for a price, the outcomes are sorted into quotes and errors, the
    quotes are reduced by "median, keep those within a per-metal band of it,
    mean of the kept ones", and the response is cached per metal for a TTL. */
module ExpressAggregator {
  import opened Basics
  import opened Stats

  /** Configuration defaults (CACHE_TTL_MS, OUTLIER_BAND_GOLD, OUTLIER_BAND_SILVER). */
  const DefaultCacheTtlMs: int := 60000
  const DefaultGoldBand: real := 0.01
  const DefaultSilverBand: real := 0.02

  const SkippedMessage: string := "skipped (missing key or disabled)"
  const InvalidDeviationReason: string := "invalid deviation"
  const OutlierReason: string := "outlier"
  const BadMetalMessage: string := "metal must be XAU or XAG"

  // ---------------------------------------------------------------------
  // Provider outcomes
  // ---------------------------------------------------------------------

  /** How one provider call settled: the provider declined (it returned null
      because its key is missing or it is disabled), threw an error with a
      message, or returned a price (`None` when the number is not finite). */
  datatype ProviderOutcome = Declined | Threw(message: string) | Returned(price: Option<real>)

  datatype ProviderResult = ProviderResult(source: string, outcome: ProviderOutcome)

  /** An entry of `okDetails`. */
  datatype Quote = Quote(source: string, price: Option<real>)

  /** The quotes of the returned outcomes, in provider order. */
  function OkDetails(rs: seq<ProviderResult>): seq<Quote> {
    if rs == [] then []
    else
      var last := rs[|rs| - 1];
      OkDetails(rs[..|rs| - 1])
        + (match last.outcome
           case Returned(p) => [Quote(last.source, p)]
           case _ => [])
  }

  /** The errors of the declined and thrown outcomes, in provider order. */
  function Errors(rs: seq<ProviderResult>): seq<ProviderError> {
    if rs == [] then []
    else
      var last := rs[|rs| - 1];
      Errors(rs[..|rs| - 1])
        + (match last.outcome
           case Declined => [ProviderError(last.source, SkippedMessage, true)]
           case Threw(msg) => [ProviderError(last.source, msg, false)]
           case Returned(_) => [])
  }

  function QuotePrices(qs: seq<Quote>): (ps: seq<Option<real>>)
    ensures |ps| == |qs|
    ensures forall i :: 0 <= i < |qs| ==> ps[i] == qs[i].price
  {
    seq(|qs|, i requires 0 <= i < |qs| => qs[i].price)
  }

  /** The partition loop of `FetchQuotesForMetalAsync` over the settled results. */
  method PartitionOutcomes(rs: seq<ProviderResult>)
    returns (okValues: seq<Option<real>>, okDetails: seq<Quote>, errors: seq<ProviderError>)
    ensures okDetails == OkDetails(rs)
    ensures errors == Errors(rs)
    ensures okValues == QuotePrices(okDetails)
  {
    okValues, okDetails, errors := [], [], [];
    for i := 0 to |rs|
      invariant okDetails == OkDetails(rs[..i])
      invariant errors == Errors(rs[..i])
      invariant okValues == QuotePrices(okDetails)
    {
      assert rs[..i + 1][..i] == rs[..i];
      var r := rs[i];
      match r.outcome {
        case Returned(p) =>
          okValues := okValues + [p];
          okDetails := okDetails + [Quote(r.source, p)];
        case Declined =>
          errors := errors + [ProviderError(r.source, SkippedMessage, true)];
        case Threw(msg) =>
          errors := errors + [ProviderError(r.source, msg, false)];
      }
    }
    assert rs[..|rs|] == rs;
  }

  /** Every provider ends up in exactly one of the two lists. */
  lemma {:induction false} PartitionSizes(rs: seq<ProviderResult>)
    ensures |OkDetails(rs)| + |Errors(rs)| == |rs|
  {
    if rs != [] {
      PartitionSizes(rs[..|rs| - 1]);
    }
  }

  /** Where each provider's outcome lands: a returned price becomes an ok
      quote, a declined call a skipped error, a thrown error an error that is
      not skipped; and every ok quote comes from a returned outcome. */
  lemma {:induction false} PartitionPlacement(rs: seq<ProviderResult>, i: nat)
    requires i < |rs|
    ensures rs[i].outcome.Returned? ==> Quote(rs[i].source, rs[i].outcome.price) in OkDetails(rs)
    ensures rs[i].outcome.Declined? ==> ProviderError(rs[i].source, SkippedMessage, true) in Errors(rs)
    ensures rs[i].outcome.Threw? ==> ProviderError(rs[i].source, rs[i].outcome.message, false) in Errors(rs)
  {
    var init := rs[..|rs| - 1];
    if i < |rs| - 1 {
      PartitionPlacement(init, i);
      assert init[i] == rs[i];
    }
  }

  lemma {:induction false} OkDetailsFromReturned(rs: seq<ProviderResult>, q: Quote)
    requires q in OkDetails(rs)
    ensures exists i :: 0 <= i < |rs| && rs[i] == ProviderResult(q.source, Returned(q.price))
  {
    var init := rs[..|rs| - 1];
    if q in OkDetails(init) {
      OkDetailsFromReturned(init, q);
      var i :| 0 <= i < |init| && init[i] == ProviderResult(q.source, Returned(q.price));
      assert rs[i] == init[i];
    } else {
      assert rs[|rs| - 1] == ProviderResult(q.source, Returned(q.price));
    }
  }

  // ---------------------------------------------------------------------
  // Robust aggregation
  // ---------------------------------------------------------------------

  /** `ComputeFractionalDeviation`: |value - center| / center, or null when
      either number is not finite or the center is zero. */
  function FractionalDeviation(value: Option<real>, center: Option<real>): (r: Option<real>)
    ensures r.None? <==> value.None? || center.None? || center.value == 0.0
    ensures r.Some? ==> r.value * center.value == Abs(value.value - center.value)
    ensures r.Some? && center.value > 0.0 ==> r.value >= 0.0
  {
    if value.None? || center.None? || center.value == 0.0 then None
    else Some(Abs(value.value - center.value) / center.value)
  }

  /** `okDetails.map(x => x.price).filter(x => Number.isFinite(x) && x > 0)`. */
  function ValidPrices(qs: seq<Quote>): (ps: seq<real>)
    ensures forall x :: x in ps ==> x > 0.0
    ensures forall x :: x in ps <==> x > 0.0 && HasPrice(qs, x)
  {
    if qs == [] then []
    else
      var rest := ValidPrices(qs[1..]);
      assert forall x :: HasPrice(qs, x) <==> qs[0].price == Some(x) || HasPrice(qs[1..], x);
      match qs[0].price
      case Some(p) => if p > 0.0 then [p] + rest else rest
      case None => rest
  }

  /** Some quote of `qs` carries the price `x`. */
  predicate HasPrice(qs: seq<Quote>, x: real) {
    exists i :: 0 <= i < |qs| && qs[i].price == Some(x)
  }

  /** An entry of `accepted`. */
  datatype AcceptedQuote = AcceptedQuote(source: string, price: real, deviation: real)

  /** An entry of `rejected`; an invalid deviation has no deviation field. */
  datatype RejectedQuote = RejectedQuote(source: string, price: Option<real>, deviation: Option<real>, reason: string)

  datatype Classified = Accept(accepted: AcceptedQuote) | Reject(rejected: RejectedQuote)

  /** The fate of one quote against the median `m` and the band. */
  function Classify(q: Quote, m: real, band: real): Classified {
    var d := FractionalDeviation(q.price, Some(m));
    if d.None? then Reject(RejectedQuote(q.source, q.price, None, InvalidDeviationReason))
    else if d.value <= band then Accept(AcceptedQuote(q.source, q.price.value, d.value))
    else Reject(RejectedQuote(q.source, q.price, d, OutlierReason))
  }

  function AcceptedOf(qs: seq<Quote>, m: real, band: real): seq<AcceptedQuote> {
    if qs == [] then []
    else
      var c := Classify(qs[|qs| - 1], m, band);
      AcceptedOf(qs[..|qs| - 1], m, band) + (if c.Accept? then [c.accepted] else [])
  }

  function RejectedOf(qs: seq<Quote>, m: real, band: real): seq<RejectedQuote> {
    if qs == [] then []
    else
      var c := Classify(qs[|qs| - 1], m, band);
      RejectedOf(qs[..|qs| - 1], m, band) + (if c.Reject? then [c.rejected] else [])
  }

  function AcceptedPrices(acc: seq<AcceptedQuote>): (ps: seq<real>)
    ensures |ps| == |acc|
    ensures forall i :: 0 <= i < |acc| ==> ps[i] == acc[i].price
  {
    seq(|acc|, i requires 0 <= i < |acc| => acc[i].price)
  }

  /** The object `AggregateQuotes` returns. */
  datatype Aggregate = Aggregate(
    metal: Metal,
    aggregatedPrice: Option<real>,
    median: Option<real>,
    usedCount: nat,
    totalCount: nat,
    accepted: seq<AcceptedQuote>,
    rejected: seq<RejectedQuote>)

  /** What `AggregateQuotes` computes. */
  function AggregateOf(metal: Metal, qs: seq<Quote>, band: real): Aggregate {
    match Median(ValidPrices(qs))
    case None => Aggregate(metal, None, None, 0, |qs|, [], [])
    case Some(m) =>
      var acc := AcceptedOf(qs, m, band);
      Aggregate(metal, Mean(AcceptedPrices(acc)), Some(m), |acc|, |qs|, acc, RejectedOf(qs, m, band))
  }

  /** `ComputeMean`, an accumulator loop. */
  method ComputeMean(values: seq<real>) returns (r: Option<real>)
    ensures r == Mean(values)
  {
    if |values| == 0 {
      return None;
    }
    var sum := 0.0;
    for i := 0 to |values|
      invariant sum == Sum(values[..i])
    {
      assert values[..i + 1][..i] == values[..i];
      sum := sum + values[i];
    }
    assert values[..|values|] == values;
    return Some(sum / |values| as real);
  }

  /** The push loop of `AggregateQuotes`: each ok quote goes to `accepted`
      or `rejected` by its deviation from the median `m`. */
  method ClassifyQuotes(okDetails: seq<Quote>, m: real, band: real)
    returns (accepted: seq<AcceptedQuote>, rejected: seq<RejectedQuote>)
    ensures accepted == AcceptedOf(okDetails, m, band)
    ensures rejected == RejectedOf(okDetails, m, band)
  {
    accepted, rejected := [], [];
    for i := 0 to |okDetails|
      invariant accepted == AcceptedOf(okDetails[..i], m, band)
      invariant rejected == RejectedOf(okDetails[..i], m, band)
    {
      var q := okDetails[i];
      assert okDetails[..i + 1] == okDetails[..i] + [q];
      ClassifySnoc(okDetails[..i], q, m, band);
      var deviation := FractionalDeviation(q.price, Some(m));
      if deviation.None? {
        rejected := rejected + [RejectedQuote(q.source, q.price, None, InvalidDeviationReason)];
      } else if deviation.value <= band {
        accepted := accepted + [AcceptedQuote(q.source, q.price.value, deviation.value)];
      } else {
        rejected := rejected + [RejectedQuote(q.source, q.price, deviation, OutlierReason)];
      }
    }
    assert okDetails[..|okDetails|] == okDetails;
  }

  /** `AggregateQuotes`: median of the valid prices, classification against
      it, mean of the accepted prices. */
  method AggregateQuotes(metal: Metal, okDetails: seq<Quote>, band: real) returns (agg: Aggregate)
    ensures agg == AggregateOf(metal, okDetails, band)
  {
    var median := Median(ValidPrices(okDetails));
    if median.None? {
      return Aggregate(metal, None, None, 0, |okDetails|, [], []);
    }
    var m := median.value;
    var accepted, rejected := ClassifyQuotes(okDetails, m, band);
    var mean := ComputeMean(AcceptedPrices(accepted));
    agg := Aggregate(metal, mean, Some(m), |accepted|, |okDetails|, accepted, rejected);
  }

  lemma ClassifySnoc(qs: seq<Quote>, q: Quote, m: real, band: real)
    ensures var c := Classify(q, m, band);
      AcceptedOf(qs + [q], m, band) == AcceptedOf(qs, m, band) + (if c.Accept? then [c.accepted] else [])
      && RejectedOf(qs + [q], m, band) == RejectedOf(qs, m, band) + (if c.Reject? then [c.rejected] else [])
  {
    assert (qs + [q])[..|qs|] == qs;
  }

  /** Every ok quote is either accepted or rejected, never both. */
  lemma {:induction false} ClassifySizes(qs: seq<Quote>, m: real, band: real)
    ensures |AcceptedOf(qs, m, band)| + |RejectedOf(qs, m, band)| == |qs|
  {
    if qs != [] {
      ClassifySizes(qs[..|qs| - 1], m, band);
    }
  }

  /** Every accepted quote came from the input and its deviation from the
      median `m` is within the band. */
  lemma {:induction false} AcceptedWithinBand(qs: seq<Quote>, m: real, band: real)
    ensures forall a :: a in AcceptedOf(qs, m, band) ==>
      a.deviation <= band && a.deviation * m == Abs(a.price - m)
      && Quote(a.source, Some(a.price)) in qs
  {
    if qs != [] {
      var init := qs[..|qs| - 1];
      AcceptedWithinBand(init, m, band);
      assert forall q :: q in init ==> q in qs;
    }
  }

  /** A rejected quote either has no deviation ("invalid deviation") or one
      beyond the band ("outlier"). */
  lemma {:induction false} RejectedReasons(qs: seq<Quote>, m: real, band: real)
    ensures forall r :: r in RejectedOf(qs, m, band) ==>
      (r.deviation.None? && r.reason == InvalidDeviationReason)
      || (r.deviation.Some? && r.deviation.value > band && r.reason == OutlierReason)
  {
    if qs != [] {
      RejectedReasons(qs[..|qs| - 1], m, band);
    }
  }

  /** A quote whose deviation is defined and within the band is accepted. */
  lemma {:induction false} WithinBandAccepted(qs: seq<Quote>, m: real, band: real, i: nat)
    requires i < |qs|
    requires Classify(qs[i], m, band).Accept?
    ensures Classify(qs[i], m, band).accepted in AcceptedOf(qs, m, band)
  {
    var init := qs[..|qs| - 1];
    if i < |qs| - 1 {
      assert init[i] == qs[i];
      WithinBandAccepted(init, m, band, i);
    }
  }

  /** The server's answer when no ok quote carries a finite positive price. */
  lemma NoValidPrice(metal: Metal, qs: seq<Quote>, band: real)
    requires forall q :: q in qs ==> q.price.None? || q.price.value <= 0.0
    ensures var agg := AggregateOf(metal, qs, band);
      agg.aggregatedPrice.None? && agg.median.None? && agg.usedCount == 0
      && agg.totalCount == |qs| && agg.accepted == [] && agg.rejected == []
  {
    NoValidPriceList(qs);
  }

  lemma {:induction false} NoValidPriceList(qs: seq<Quote>)
    requires forall q :: q in qs ==> q.price.None? || q.price.value <= 0.0
    ensures ValidPrices(qs) == []
  {
    if qs != [] {
      assert qs[0] in qs;
      assert forall q :: q in qs[1..] ==> q in qs;
      NoValidPriceList(qs[1..]);
    }
  }

  /** Each accepted price lies within the band around a positive median. */
  lemma AcceptedPricesInBand(qs: seq<Quote>, m: real, band: real)
    requires m > 0.0
    ensures forall x :: x in AcceptedPrices(AcceptedOf(qs, m, band)) ==>
      m * (1.0 - band) <= x <= m * (1.0 + band)
  {
    var acc := AcceptedOf(qs, m, band);
    var prices := AcceptedPrices(acc);
    AcceptedWithinBand(qs, m, band);
    forall i | 0 <= i < |prices| ensures m * (1.0 - band) <= prices[i] <= m * (1.0 + band) {
      var a := acc[i];
      assert a in acc;
      assert a.deviation <= band && a.deviation * m == Abs(a.price - m);
      ScaledDeviationInBand(a.price, m, band, a.deviation);
    }
  }

  /** There is no fallback: the aggregated price exists exactly when some
      quote was accepted, and then it is the mean of the accepted prices,
      which lies within the band around the (positive) median M:
      M(1 - b) <= price <= M(1 + b). */
  lemma AggregateWithinBand(metal: Metal, qs: seq<Quote>, band: real)
    ensures var agg := AggregateOf(metal, qs, band);
      (agg.aggregatedPrice.Some? <==> agg.accepted != [])
      && (agg.aggregatedPrice.Some? ==>
            agg.median.Some? && agg.median.value > 0.0
            && InBand(agg.aggregatedPrice.value, agg.median.value, band))
  {
    var ps := ValidPrices(qs);
    if ps != [] {
      MedianWithinRange(ps);
      var m := Median(ps).value;
      assert Min(ps) > 0.0;
      assert m > 0.0;
      var acc := AcceptedOf(qs, m, band);
      var agg := AggregateOf(metal, qs, band);
      assert agg.median == Some(m) && agg.accepted == acc;
      assert agg.aggregatedPrice == Mean(AcceptedPrices(acc));
      if acc != [] {
        AcceptedPricesInBand(qs, m, band);
        var lo, hi := m * (1.0 - band), m * (1.0 + band);
        MeanWithin(AcceptedPrices(acc), lo, hi);
        assert InBand(agg.aggregatedPrice.value, m, band);
      } else {
        assert AcceptedPrices(acc) == [];
        assert agg.aggregatedPrice.None?;
      }
    } else {
      assert Median(ps).None?;
      assert AggregateOf(metal, qs, band).aggregatedPrice.None?;
    }
  }

  // ---------------------------------------------------------------------
  // The /api/spot handler and its cache
  // ---------------------------------------------------------------------

  /** The JSON body of a successful `/api/spot` response. */
  datatype SpotPayload = SpotPayload(
    metal: Metal,
    price: Option<real>,
    median: Option<real>,
    usedCount: nat,
    fetchedOkCount: nat,
    outlierBand: real,
    accepted: seq<AcceptedQuote>,
    rejected: seq<RejectedQuote>,
    providerErrors: seq<ProviderError>,
    updatedAt: string)

  datatype SpotResponse = BadRequest(message: string) | Json(payload: SpotPayload)

  datatype CacheEntry = CacheEntry(createdAtMs: int, payload: SpotPayload)

  /** The payload built from the settled provider results. */
  function PayloadOf(metal: Metal, rs: seq<ProviderResult>, band: real, updatedAt: string): (p: SpotPayload)
    ensures p.metal == metal && p.outlierBand == band && p.updatedAt == updatedAt
    ensures p.providerErrors == Errors(rs)
    ensures p.fetchedOkCount + |p.providerErrors| == |rs|
  {
    PartitionSizes(rs);
    var agg := AggregateOf(metal, OkDetails(rs), band);
    SpotPayload(metal, agg.aggregatedPrice, agg.median, agg.usedCount, agg.totalCount, band,
                agg.accepted, agg.rejected, Errors(rs), updatedAt)
  }

  /** A cache entry is fresh while its age is at most the TTL. */
  predicate IsFresh(entry: CacheEntry, now: int, ttlMs: int) {
    now - entry.createdAtMs <= ttlMs
  }

  /** Removing a key and then storing it again is the same as storing it. */
  lemma ReplaceAfterRemove<K, V>(m: map<K, V>, k: K, v: V)
    ensures (m - {k})[k := v] == m[k := v]
  {
  }

  /** The process holding the in-memory cache `Cache_ByMetalCode_Map` and the
      configuration read at start-up. */
  class SpotServer {
    const ttlMs: int
    const goldBand: real
    const silverBand: real
    var cache: map<Metal, CacheEntry>

    constructor (ttlMs: int, goldBand: real, silverBand: real)
      ensures this.ttlMs == ttlMs && this.goldBand == goldBand && this.silverBand == silverBand
      ensures cache == map[]
    {
      this.ttlMs := ttlMs;
      this.goldBand := goldBand;
      this.silverBand := silverBand;
      cache := map[];
    }

    /** The outlier band for a metal: the gold band for XAU, the silver band for XAG. */
    function OutlierBand(metal: Metal): (b: real)
      ensures b == (if metal == XAU then goldBand else silverBand)
    {
      match metal
      case XAU => goldBand
      case XAG => silverBand
    }

    /** `TryGetCache`: a hit returns the stored payload and changes nothing; an
        expired entry is deleted (and the lookup misses); other metals are
        never touched. */
    method TryGetCache(metal: Metal, now: int) returns (hit: Option<SpotPayload>)
      modifies this
      ensures hit.Some? <==> metal in old(cache) && IsFresh(old(cache)[metal], now, ttlMs)
      ensures hit.Some? ==> hit.value == old(cache)[metal].payload && cache == old(cache)
      ensures hit.None? ==> cache == old(cache) - {metal}
    {
      if metal !in cache {
        assert cache - {metal} == cache;
        return None;
      }
      var cached := cache[metal];
      if now - cached.createdAtMs > ttlMs {
        cache := cache - {metal};
        return None;
      }
      return Some(cached.payload);
    }

    /** `PutCache`: the whole entry for `metal` is replaced, stamped with `now`. */
    method PutCache(metal: Metal, payload: SpotPayload, now: int)
      modifies this
      ensures cache == old(cache)[metal := CacheEntry(now, payload)]
    {
      cache := cache[metal := CacheEntry(now, payload)];
    }

    /** A put followed by a lookup within the TTL returns the stored payload. */
    method PutThenGet(metal: Metal, payload: SpotPayload, putAt: int, getAt: int) returns (hit: Option<SpotPayload>)
      requires getAt - putAt <= ttlMs
      modifies this
      ensures hit == Some(payload)
      ensures cache == old(cache)[metal := CacheEntry(putAt, payload)]
    {
      PutCache(metal, payload, putAt);
      hit := TryGetCache(metal, getAt);
    }

    /** `GET /api/spot`: an invalid metal is refused with 400 before the cache
        is consulted; a fresh cache entry is answered as is; otherwise the
        settled provider results (what the providers yield for this metal)
        are aggregated with the metal's band and the payload is cached,
        stamped with `responseTime`, and returned. */
    method HandleSpot(metalParam: Option<string>, results: seq<ProviderResult>,
                      requestTime: int, responseTime: int, updatedAt: string)
      returns (resp: SpotResponse)
      modifies this
      ensures ParseMetalParam(metalParam).None? ==>
        resp == BadRequest(BadMetalMessage) && cache == old(cache)
      ensures ParseMetalParam(metalParam).Some? ==>
        var metal := ParseMetalParam(metalParam).value;
        if metal in old(cache) && IsFresh(old(cache)[metal], requestTime, ttlMs) then
          resp == Json(old(cache)[metal].payload) && cache == old(cache)
        else
          var payload := PayloadOf(metal, results, OutlierBand(metal), updatedAt);
          resp == Json(payload) && cache == old(cache)[metal := CacheEntry(responseTime, payload)]
    {
      var parsed := ParseMetalParam(metalParam);
      if parsed.None? {
        return BadRequest(BadMetalMessage);
      }
      var metal := parsed.value;
      ghost var before := cache;
      var cached := TryGetCache(metal, requestTime);
      if cached.Some? {
        return Json(cached.value);
      }
      var payload := BuildPayload(metal, results, updatedAt);
      PutCache(metal, payload, responseTime);
      assert cache == before[metal := CacheEntry(responseTime, payload)] by {
        ReplaceAfterRemove(before, metal, CacheEntry(responseTime, payload));
      }
      return Json(payload);
    }

    /** The cache-miss path of the handler: partition, aggregate with the
        metal's band, and assemble the response body. */
    method BuildPayload(metal: Metal, results: seq<ProviderResult>, updatedAt: string)
      returns (payload: SpotPayload)
      ensures payload == PayloadOf(metal, results, OutlierBand(metal), updatedAt)
    {
      var band := OutlierBand(metal);
      var okValues, okDetails, errors := PartitionOutcomes(results);
      var aggregate := AggregateQuotes(metal, okDetails, band);
      payload := SpotPayload(metal, aggregate.aggregatedPrice, aggregate.median,
                             aggregate.usedCount, aggregate.totalCount, band,
                             aggregate.accepted, aggregate.rejected, errors, updatedAt);
    }
  }
}
