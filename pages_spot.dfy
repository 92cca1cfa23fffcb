/** The Cloudflare Pages spot function (spot.js): the providers are asked one
    after another, the successful prices are reduced by "median, keep those
    within 1.5% of it, median again", falling back to the unfiltered list
    when the band keeps nothing, and the answer is kept in the edge cache
    under "spot:" + metal. */
module PagesSpot {
  import opened Basics
  import opened Stats

  const OutlierBandFraction: real := 0.015
  const CacheTtlSeconds: nat := 30
  const InvalidMetalMessage: string := "Invalid or missing 'metal' query parameter. Use XAU or XAG."
  const SkippedMessage: string := "skipped (missing key or disabled)"
  const MissingKeyMessage: string := "skipped (missing key)"

  // ---------------------------------------------------------------------
  // Request validation and the cache key
  // ---------------------------------------------------------------------

  /** `(get("metal") || "").trim().toUpperCase()` compared with the two codes. */
  function ParseMetal(raw: Option<string>): (r: Option<Metal>)
    ensures r.Some? <==> ToUpper(Trim(raw.GetOr(""))) in {"XAU", "XAG"}
    ensures r.Some? ==> ToUpper(Trim(raw.GetOr(""))) == Code(r.value)
  {
    ParseMetalCode(ToUpper(Trim(raw.GetOr(""))))
  }

  /** Trimming before upper-casing accepts exactly the parameters the
      Express server accepts, which upper-cases first. */
  lemma ParseMetalAgreesWithServer(raw: Option<string>)
    ensures ParseMetal(raw) == ParseMetalParam(raw)
  {
    UpperTrimCommute(raw.GetOr(""));
  }

  function CacheKey(m: Metal): (key: string)
    ensures |key| == 8 && key[..5] == "spot:" && key[5..] == Code(m)
  {
    "spot:" + Code(m)
  }

  /** The two metals never share a cache entry. */
  lemma CacheKeyInjective(a: Metal, b: Metal)
    requires CacheKey(a) == CacheKey(b)
    ensures a == b
  {
    assert CacheKey(a)[5..] == CacheKey(b)[5..];
    ParseMetalCodeRoundTrip(a);
    ParseMetalCodeRoundTrip(b);
  }

  // ---------------------------------------------------------------------
  // Providers and the sequential fetch loop
  // ---------------------------------------------------------------------

  /** A price a provider adapter hands back: both adapters throw unless the
      number is finite and positive. */
  type Price = r: real | r > 0.0 witness 1.0

  datatype Provider = Provider(source: string, isEnabled: bool)

  /** An entry of `accepted` / `rejected`. */
  datatype Entry = Entry(source: string, price: Price, deviationFraction: real)

  /** `METALPRICEAPI_API_KEY` is truthy: present and not the empty string. */
  predicate KeyIsSet(key: Option<string>) {
    key.Some? && key.value != ""
  }

  /** The provider list: gold-api.com always, metalpriceapi.com enabled when
      its key is set. */
  function ProvidersFor(key: Option<string>): (ps: seq<Provider>)
    ensures |ps| == 2
    ensures ps[0] == Provider("gold-api.com", true)
    ensures ps[1] == Provider("metalpriceapi.com", KeyIsSet(key))
  {
    [Provider("gold-api.com", true), Provider("metalpriceapi.com", KeyIsSet(key))]
  }

  /** What calling a provider's adapter yields: a price; an `Error` the
      adapter throws itself with `message` (an HTTP status, an invalid price,
      a missing key); or a rejection from below the adapter, such as the
      `TypeError` of a failed `fetch` or the `SyntaxError` of a body that
      `json()` cannot decode, carried as its full `String(reason)` text. */
  datatype Outcome = Priced(price: Price) | Raised(message: string) | Threw(text: string)

  /** What the metalpriceapi.com adapter yields: it trims its key and throws
      "skipped (missing key)" when nothing is left, otherwise it yields what
      the HTTP exchange gave. */
  function MetalPriceApiAttempt(key: Option<string>, exchange: Outcome): (r: Outcome)
    ensures IsBlank(key.GetOr("")) ==> r == Raised(MissingKeyMessage)
    ensures !IsBlank(key.GetOr("")) ==> r == exchange
  {
    if IsBlank(key.GetOr("")) then Raised(MissingKeyMessage) else exchange
  }

  /** A key made only of white space enables the provider, whose adapter
      then throws: the error is reported as a failure, not as a skip. */
  lemma BlankKeyIsNotSkipped(exchange: Outcome)
    ensures KeyIsSet(Some(" "))
    ensures MetalPriceApiAttempt(Some(" "), exchange) == Raised(MissingKeyMessage)
  {
    assert IsTrimmable(' ');
    assert LeadingSpace(" ") == 1;
  }

  /** `String(error)` for an `Error` thrown with `message`. */
  function ErrorText(message: string): (t: string)
    ensures |t| == |message| + 7 && t[..7] == "Error: " && t[7..] == message
  {
    "Error: " + message
  }

  /** `String(error)` for a failed call: the adapter's own `Error` reads
      "Error: " and its message; a rejection from below the adapter keeps
      its own text, "TypeError: …" or "SyntaxError: …". */
  function FailureText(o: Outcome): (t: string)
    requires !o.Priced?
    ensures o.Raised? ==> t == ErrorText(o.message)
    ensures o.Threw? ==> t == o.text
  {
    match o
    case Raised(message) => ErrorText(message)
    case Threw(text) => text
  }

  /** The accepted entries of the fetch loop; `outcomes[i]` is what provider
      i's adapter yields when it is called. */
  function FetchedOf(ps: seq<Provider>, outcomes: seq<Outcome>): (es: seq<Entry>)
    requires |ps| == |outcomes|
    ensures |es| <= |ps|
    ensures forall e :: e in es ==> e.deviationFraction == 0.0
  {
    if ps == [] then []
    else
      var n := |ps| - 1;
      FetchedOf(ps[..n], outcomes[..n])
        + (if ps[n].isEnabled && outcomes[n].Priced? then [Entry(ps[n].source, outcomes[n].price, 0.0)] else [])
  }

  /** The provider errors of the fetch loop. */
  function FetchErrorsOf(ps: seq<Provider>, outcomes: seq<Outcome>): (errs: seq<ProviderError>)
    requires |ps| == |outcomes|
  {
    if ps == [] then []
    else
      var n := |ps| - 1;
      FetchErrorsOf(ps[..n], outcomes[..n])
        + (if !ps[n].isEnabled then [ProviderError(ps[n].source, SkippedMessage, true)]
           else if !outcomes[n].Priced? then [ProviderError(ps[n].source, FailureText(outcomes[n]), false)]
           else [])
  }

  /** `FetchAllProvidersAsync_ProvidersArray_MetalCode_Context`. */
  method FetchAllProviders(ps: seq<Provider>, outcomes: seq<Outcome>)
    returns (accepted: seq<Entry>, providerErrors: seq<ProviderError>)
    requires |ps| == |outcomes|
    ensures accepted == FetchedOf(ps, outcomes)
    ensures providerErrors == FetchErrorsOf(ps, outcomes)
  {
    accepted, providerErrors := [], [];
    for i := 0 to |ps|
      invariant accepted == FetchedOf(ps[..i], outcomes[..i])
      invariant providerErrors == FetchErrorsOf(ps[..i], outcomes[..i])
    {
      assert ps[..i + 1][..i] == ps[..i] && outcomes[..i + 1][..i] == outcomes[..i];
      var provider := ps[i];
      if !provider.isEnabled {
        providerErrors := providerErrors + [ProviderError(provider.source, SkippedMessage, true)];
        continue;
      }
      match outcomes[i] {
        case Priced(price) =>
          accepted := accepted + [Entry(provider.source, price, 0.0)];
        case Raised(message) =>
          providerErrors := providerErrors + [ProviderError(provider.source, ErrorText(message), false)];
        case Threw(text) =>
          providerErrors := providerErrors + [ProviderError(provider.source, text, false)];
      }
    }
    assert ps[..|ps|] == ps && outcomes[..|outcomes|] == outcomes;
  }

  /** Each provider yields exactly one entry, accepted or error. */
  lemma {:induction false} FetchAllSizes(ps: seq<Provider>, outcomes: seq<Outcome>)
    requires |ps| == |outcomes|
    ensures |FetchedOf(ps, outcomes)| + |FetchErrorsOf(ps, outcomes)| == |ps|
  {
    if ps != [] {
      var n := |ps| - 1;
      FetchAllSizes(ps[..n], outcomes[..n]);
    }
  }

  /** Where provider i's entry lands: a disabled provider is a skipped
      error; the adapter's own `Error` is a non-skipped error reading
      "Error: " and its message; any other rejection is a non-skipped error
      carrying its own text; a price is an accepted entry with deviation 0. */
  lemma {:induction false} FetchAllPlacement(ps: seq<Provider>, outcomes: seq<Outcome>, i: nat)
    requires |ps| == |outcomes| && i < |ps|
    ensures !ps[i].isEnabled ==> ProviderError(ps[i].source, SkippedMessage, true) in FetchErrorsOf(ps, outcomes)
    ensures ps[i].isEnabled && outcomes[i].Raised? ==>
      ProviderError(ps[i].source, ErrorText(outcomes[i].message), false) in FetchErrorsOf(ps, outcomes)
    ensures ps[i].isEnabled && outcomes[i].Threw? ==>
      ProviderError(ps[i].source, outcomes[i].text, false) in FetchErrorsOf(ps, outcomes)
    ensures ps[i].isEnabled && outcomes[i].Priced? ==>
      Entry(ps[i].source, outcomes[i].price, 0.0) in FetchedOf(ps, outcomes)
  {
    var n := |ps| - 1;
    if i < n {
      assert ps[..n][i] == ps[i] && outcomes[..n][i] == outcomes[i];
      FetchAllPlacement(ps[..n], outcomes[..n], i);
    }
  }

  // ---------------------------------------------------------------------
  // The band pass and the fallback
  // ---------------------------------------------------------------------

  function Prices(es: seq<Entry>): (ps: seq<real>)
    ensures |ps| == |es|
    ensures forall i :: 0 <= i < |es| ==> ps[i] == es[i].price
    ensures forall x :: x in ps ==> x > 0.0
  {
    seq(|es|, i requires 0 <= i < |es| => es[i].price)
  }

  /** The median of the accepted prices, which is positive. */
  function FirstMedian(es: seq<Entry>): (m: real)
    requires es != []
    ensures m > 0.0
    ensures Min(Prices(es)) <= m <= Max(Prices(es))
  {
    var ps := Prices(es);
    MedianWithinRange(ps);
    assert Min(ps) in ps;
    Median(ps).value
  }

  /** The entry rebuilt with its deviation from the median `m`. */
  function Rescore(e: Entry, m: real): (r: Entry)
    requires m > 0.0
    ensures r.source == e.source && r.price == e.price
    ensures r.deviationFraction * m == Abs(e.price - m)
  {
    Entry(e.source, e.price, Abs(e.price - m) / m)
  }

  function Rescored(es: seq<Entry>, m: real): (rs: seq<Entry>)
    requires m > 0.0
    ensures |rs| == |es|
    ensures forall i :: 0 <= i < |es| ==> rs[i] == Rescore(es[i], m)
  {
    seq(|es|, i requires 0 <= i < |es| => Rescore(es[i], m))
  }

  function Keeps(band: real): Entry -> bool {
    (e: Entry) => e.deviationFraction <= band
  }

  function Drops(band: real): Entry -> bool {
    (e: Entry) => !(e.deviationFraction <= band)
  }

  /** `FinalAccepted_Array`. */
  function KeptOf(es: seq<Entry>, m: real, band: real): seq<Entry>
    requires m > 0.0
  {
    Filter(Rescored(es, m), Keeps(band))
  }

  /** `FinalRejected_Array`. */
  function DroppedOf(es: seq<Entry>, m: real, band: real): seq<Entry>
    requires m > 0.0
  {
    Filter(Rescored(es, m), Drops(band))
  }

  /** The band loop over the accepted entries. */
  method SplitByBand(es: seq<Entry>, m: real, band: real)
    returns (kept: seq<Entry>, dropped: seq<Entry>)
    requires m > 0.0
    ensures kept == KeptOf(es, m, band)
    ensures dropped == DroppedOf(es, m, band)
  {
    kept, dropped := [], [];
    for i := 0 to |es|
      invariant kept == Filter(Rescored(es[..i], m), Keeps(band))
      invariant dropped == Filter(Rescored(es[..i], m), Drops(band))
    {
      var entry := Rescore(es[i], m);
      BandStep(es, i, m, band);
      if entry.deviationFraction <= band {
        kept := kept + [entry];
      } else {
        dropped := dropped + [entry];
      }
    }
    assert es[..|es|] == es;
  }

  lemma BandStep(es: seq<Entry>, i: nat, m: real, band: real)
    requires m > 0.0 && i < |es|
    ensures var e := Rescore(es[i], m);
      && Filter(Rescored(es[..i + 1], m), Keeps(band))
         == Filter(Rescored(es[..i], m), Keeps(band)) + (if e.deviationFraction <= band then [e] else [])
      && Filter(Rescored(es[..i + 1], m), Drops(band))
         == Filter(Rescored(es[..i], m), Drops(band)) + (if e.deviationFraction <= band then [] else [e])
  {
    var e := Rescore(es[i], m);
    var pre := Rescored(es[..i], m);
    RescoredSnoc(es, i, m);
    FilterSnoc(pre, e, Keeps(band));
    FilterSnoc(pre, e, Drops(band));
  }

  lemma RescoredSnoc(es: seq<Entry>, i: nat, m: real)
    requires m > 0.0 && i < |es|
    ensures Rescored(es[..i + 1], m) == Rescored(es[..i], m) + [Rescore(es[i], m)]
  {
  }

  /** Every accepted entry is either kept or dropped. */
  lemma BandSplitSizes(es: seq<Entry>, m: real, band: real)
    requires m > 0.0
    ensures |KeptOf(es, m, band)| + |DroppedOf(es, m, band)| == |es|
  {
    FilterComplement(Rescored(es, m), Keeps(band), Drops(band));
  }

  /** An entry is kept exactly when its deviation from `m` is within the band. */
  lemma BandSplitMembership(es: seq<Entry>, m: real, band: real, i: nat)
    requires m > 0.0 && i < |es|
    ensures Rescore(es[i], m).deviationFraction <= band ==> Rescore(es[i], m) in KeptOf(es, m, band)
    ensures Rescore(es[i], m).deviationFraction > band ==> Rescore(es[i], m) in DroppedOf(es, m, band)
  {
    assert Rescored(es, m)[i] == Rescore(es[i], m);
  }

  /** The kept entries are the used list unless the band kept nothing, in
      which case the unfiltered accepted list is used. */
  function UsedOf(es: seq<Entry>, band: real): (used: seq<Entry>)
    requires es != []
    ensures used != []
  {
    var kept := KeptOf(es, FirstMedian(es), band);
    if kept != [] then kept else es
  }

  // ---------------------------------------------------------------------
  // Payloads
  // ---------------------------------------------------------------------

  /** The JSON body of a spot answer. */
  datatype SpotPayload = SpotPayload(
    metal: Metal,
    priceUsdPerTroyOunce: Option<real>,
    medianUsdPerTroyOunce: Option<real>,
    usedCount: nat,
    fetchedOkCount: nat,
    outlierBandFraction: real,
    accepted: seq<Entry>,
    rejected: seq<Entry>,
    providerErrors: seq<ProviderError>,
    updatedAtUtcIso: string)

  datatype Reply = Reply(status: int, payload: SpotPayload)

  /** `BuildFailurePayload_Object_MetalCode_ProviderErrors`. */
  function FailurePayload(metal: Metal, band: real, errors: seq<ProviderError>, updatedAt: string): (p: SpotPayload)
    ensures p.metal == metal && p.outlierBandFraction == band
    ensures p.priceUsdPerTroyOunce.None? && p.medianUsdPerTroyOunce.None?
    ensures p.usedCount == 0 && p.fetchedOkCount == 0
    ensures p.accepted == [] && p.rejected == []
    ensures p.providerErrors == errors && p.updatedAtUtcIso == updatedAt
  {
    SpotPayload(metal, None, None, 0, 0, band, [], [], errors, updatedAt)
  }

  /** What `onRequestGet` answers for a metal once the providers have
      produced `es` and `errors` (the cache having missed). */
  function ReplyFor(metal: Metal, es: seq<Entry>, errors: seq<ProviderError>, band: real, updatedAt: string): Reply {
    if es == [] then Reply(502, FailurePayload(metal, band, errors, updatedAt))
    else
      var m := FirstMedian(es);
      var used := UsedOf(es, band);
      var price := Median(Prices(used));
      Reply(200, SpotPayload(metal, price, price, |used|, |used|, band, used, DroppedOf(es, m, band), errors, updatedAt))
  }

  /** No accepted quote: status 502 and the failure payload with the
      provider errors passed through; otherwise status 200. */
  lemma ReplyStatus(metal: Metal, es: seq<Entry>, errors: seq<ProviderError>, band: real, updatedAt: string)
    ensures var r := ReplyFor(metal, es, errors, band, updatedAt);
      (r.status == 502 <==> es == []) && (r.status == 200 <==> es != [])
      && r.payload.providerErrors == errors && r.payload.metal == metal
      && (es == [] ==> r.payload == FailurePayload(metal, band, errors, updatedAt))
  {
  }

  /** A non-empty accepted list always yields a price, which is also the
      reported median; both counts are the number of used entries. */
  lemma NonEmptyYieldsPrice(metal: Metal, es: seq<Entry>, errors: seq<ProviderError>, band: real, updatedAt: string)
    requires es != []
    ensures var p := ReplyFor(metal, es, errors, band, updatedAt).payload;
      p.priceUsdPerTroyOunce.Some? && p.priceUsdPerTroyOunce == p.medianUsdPerTroyOunce
      && p.usedCount == p.fetchedOkCount == |p.accepted| >= 1
  {
    var used := UsedOf(es, band);
    assert Prices(used) != [];
  }

  /** Every used entry carries one of the accepted prices. */
  lemma UsedPricesFromAccepted(es: seq<Entry>, band: real)
    requires es != []
    ensures forall x :: x in Prices(UsedOf(es, band)) ==> x in Prices(es)
  {
    var m := FirstMedian(es);
    var kept := KeptOf(es, m, band);
    var rs := Rescored(es, m);
    if kept != [] {
      forall x | x in Prices(kept) ensures x in Prices(es) {
        var i :| 0 <= i < |kept| && Prices(kept)[i] == x;
        assert kept[i] in rs;
        var j :| 0 <= j < |rs| && rs[j] == kept[i];
        assert Prices(es)[j] == x;
      }
    }
  }

  /** The price is a median of accepted prices, so it lies between the
      least and the greatest of them. */
  lemma PriceWithinAcceptedRange(metal: Metal, es: seq<Entry>, errors: seq<ProviderError>, band: real, updatedAt: string)
    requires es != []
    ensures var p := ReplyFor(metal, es, errors, band, updatedAt).payload;
      p.priceUsdPerTroyOunce.Some?
      && Min(Prices(es)) <= p.priceUsdPerTroyOunce.value <= Max(Prices(es))
  {
    var used := UsedOf(es, band);
    UsedPricesFromAccepted(es, band);
    MedianWithin(Prices(used), Min(Prices(es)), Max(Prices(es)));
  }

  /** Every kept price lies within the band around `m`. */
  lemma KeptPricesInBand(es: seq<Entry>, m: real, band: real)
    requires m > 0.0
    ensures forall x :: x in Prices(KeptOf(es, m, band)) ==> InBand(x, m, band)
  {
    var kept := KeptOf(es, m, band);
    var ps := Prices(kept);
    forall i | 0 <= i < |ps| ensures InBand(ps[i], m, band) {
      assert kept[i] in kept;
      assert Keeps(band)(kept[i]);
      var j :| 0 <= j < |es| && Rescored(es, m)[j] == kept[i];
      DeviationInBand(ps[i], m, band);
    }
  }

  /** When the band kept something, the price lies within the band around
      the first median. */
  lemma PriceWithinBandWhenKept(metal: Metal, es: seq<Entry>, errors: seq<ProviderError>, band: real, updatedAt: string)
    requires es != []
    requires KeptOf(es, FirstMedian(es), band) != []
    ensures var p := ReplyFor(metal, es, errors, band, updatedAt).payload;
      p.priceUsdPerTroyOunce.Some? && InBand(p.priceUsdPerTroyOunce.value, FirstMedian(es), band)
  {
    var m := FirstMedian(es);
    var kept := KeptOf(es, m, band);
    assert UsedOf(es, band) == kept;
    KeptPricesInBand(es, m, band);
    MedianInBand(Prices(kept), m, band);
  }

  /** When the band keeps nothing, the unfiltered accepted entries (with
      deviation 0) are reported as used, and every rescored entry as
      rejected. */
  lemma FallbackToUnfiltered(metal: Metal, es: seq<Entry>, errors: seq<ProviderError>, band: real, updatedAt: string)
    requires es != []
    requires KeptOf(es, FirstMedian(es), band) == []
    ensures var p := ReplyFor(metal, es, errors, band, updatedAt).payload;
      p.accepted == es && p.priceUsdPerTroyOunce == Median(Prices(es))
      && |p.rejected| == |es|
  {
    BandSplitSizes(es, FirstMedian(es), band);
  }

  /** A single quote is returned unchanged, whatever the (non-negative) band. */
  lemma SingleQuoteUnchanged(metal: Metal, e: Entry, errors: seq<ProviderError>, band: real, updatedAt: string)
    requires band >= 0.0
    ensures ReplyFor(metal, [e], errors, band, updatedAt).payload.priceUsdPerTroyOunce == Some(e.price)
  {
    assert Prices([e]) == [e.price];
    MedianOfOne(e.price);
    var m := FirstMedian([e]);
    assert m == e.price;
    var r := Rescore(e, m);
    assert r.deviationFraction == 0.0;
    assert Rescored([e], m) == [r];
    assert KeptOf([e], m, band) == [r];
    assert Prices([r]) == [e.price];
  }

  // ---------------------------------------------------------------------
  // The request handler and the edge cache
  // ---------------------------------------------------------------------

  datatype Body = ErrorBody(error: string) | PayloadBody(payload: SpotPayload)

  datatype Response = Response(status: int, body: Body)

  /** A stored answer and the `max-age` it was stored with. */
  datatype Stored = Stored(payload: SpotPayload, maxAgeSeconds: nat)

  /** The reply to a valid request that missed the cache. */
  function FreshReply(metal: Metal, key: Option<string>, goldApi: Outcome,
                      metalPriceApi: Outcome, updatedAt: string): Reply
  {
    var ps := ProvidersFor(key);
    var outcomes := [goldApi, MetalPriceApiAttempt(key, metalPriceApi)];
    ReplyFor(metal, FetchedOf(ps, outcomes), FetchErrorsOf(ps, outcomes), OutlierBandFraction, updatedAt)
  }

  /** The edge cache (`caches.default`) as seen by this function: answers
      stored under their cache key. Expiry is the platform's business. */
  class EdgeCache {
    var entries: map<string, Stored>

    constructor ()
      ensures entries == map[]
    {
      entries := map[];
    }

    method Read(key: string) returns (r: Option<SpotPayload>)
      ensures r.Some? <==> key in entries
      ensures r.Some? ==> r.value == entries[key].payload
    {
      if key in entries {
        return Some(entries[key].payload);
      }
      return None;
    }

    method Write(key: string, payload: SpotPayload, ttlSeconds: nat)
      modifies this
      ensures entries == old(entries)[key := Stored(payload, ttlSeconds)]
    {
      entries := entries[key := Stored(payload, ttlSeconds)];
    }
  }

  /** `onRequestGet`: an invalid metal is refused with 400 before the cache
      or any provider is touched; a cached answer is returned with 200 (even
      a cached failure payload); otherwise the providers run, the answer is
      stored for 30 seconds and returned with 502 when no provider
      succeeded and 200 otherwise. The adapters' results are parameters. */
  method OnRequestGet(cache: EdgeCache, metalParam: Option<string>, key: Option<string>,
                      goldApi: Outcome, metalPriceApi: Outcome,
                      updatedAt: string)
    returns (resp: Response)
    modifies cache
    ensures ParseMetal(metalParam).None? ==>
      resp == Response(400, ErrorBody(InvalidMetalMessage)) && cache.entries == old(cache.entries)
    ensures ParseMetal(metalParam).Some? ==>
      var metal := ParseMetal(metalParam).value;
      var k := CacheKey(metal);
      if k in old(cache.entries) then
        resp == Response(200, PayloadBody(old(cache.entries)[k].payload)) && cache.entries == old(cache.entries)
      else
        var r := FreshReply(metal, key, goldApi, metalPriceApi, updatedAt);
        resp == Response(r.status, PayloadBody(r.payload))
        && cache.entries == old(cache.entries)[k := Stored(r.payload, CacheTtlSeconds)]
  {
    var parsed := ParseMetal(metalParam);
    if parsed.None? {
      return Response(400, ErrorBody(InvalidMetalMessage));
    }
    var metal := parsed.value;
    var cacheKey := CacheKey(metal);
    var cached := cache.Read(cacheKey);
    if cached.Some? {
      return Response(200, PayloadBody(cached.value));
    }
    var reply := Fetch(metal, key, goldApi, metalPriceApi, updatedAt);
    cache.Write(cacheKey, reply.payload, CacheTtlSeconds);
    return Response(reply.status, PayloadBody(reply.payload));
  }

  /** The cache-miss path of `onRequestGet`: fetch loop, band pass,
      fallback and payload. */
  method Fetch(metal: Metal, key: Option<string>, goldApi: Outcome,
               metalPriceApi: Outcome, updatedAt: string)
    returns (reply: Reply)
    ensures reply == FreshReply(metal, key, goldApi, metalPriceApi, updatedAt)
  {
    var providers := ProvidersFor(key);
    var accepted, errors := FetchAllProviders(providers, [goldApi, MetalPriceApiAttempt(key, metalPriceApi)]);
    if |accepted| == 0 {
      return Reply(502, FailurePayload(metal, OutlierBandFraction, errors, updatedAt));
    }
    var median := Median(Prices(accepted)).value;
    assert median == FirstMedian(accepted);
    var kept, dropped := SplitByBand(accepted, median, OutlierBandFraction);
    var used := if |kept| > 0 then kept else accepted;
    var finalMedian := Median(Prices(used));
    reply := Reply(200, SpotPayload(metal, finalMedian, finalMedian, |used|, |used|, OutlierBandFraction,
                                    used, dropped, errors, updatedAt));
  }
}
