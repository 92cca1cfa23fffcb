/** The two-lane spot function (functions/api/spot.js): a retail lane and a
    market lane, each holding the price of the last provider of its kind
    that succeeded; the main price is the median of the lanes present (one
    value, or the average of the two), and every provider is reported. */
module TwoLaneSpot {
  import opened Basics
  import opened Stats
  import opened TwoLaneAdapters

  const InvalidMetalMessage: string := "Invalid metal code. Use XAU or XAG."
  const UnknownLabel: string := "(unknown)"

  /** The GoldAPI.io key written into the source, and the placeholder it is
      compared with; they are the same text. */
  const HardcodedGoldApiKey: string := "goldapi-72cmsmlwyskzt-io"
  const GoldApiKeyPlaceholder: string := "goldapi-72cmsmlwyskzt-io"

  // ---------------------------------------------------------------------
  // The provider list
  // ---------------------------------------------------------------------

  /** The provider invokers; the keyed ones carry the key they were built with. */
  datatype ProviderId = GoldPrice | Stooq | MetalsApi(apiKey: string) | GoldApiIo(apiKey: string)

  /** The lane each provider reports into. */
  function KindOf(p: ProviderId): (k: Kind)
    ensures k == Retail <==> p == GoldPrice
  {
    if p == GoldPrice then Retail else Market
  }

  /** The `name` each provider's quote carries. */
  function ProviderName(p: ProviderId): (name: string)
    ensures name in {"GoldPrice", "Stooq", "Metals-API", "GoldAPI.io"}
  {
    match p
    case GoldPrice => "GoldPrice"
    case Stooq => "Stooq"
    case MetalsApi(_) => "Metals-API"
    case GoldApiIo(_) => "GoldAPI.io"
  }

  /** `typeof v === "string" && v.trim().length > 0`. */
  predicate NonBlank(v: Option<string>) {
    v.Some? && !IsBlank(v.value)
  }

  /** The hard-coded key may be used only when it differs from the
      placeholder and is not blank. */
  predicate FallbackUsable(key: string) {
    key != GoldApiKeyPlaceholder && !IsBlank(key)
  }

  /** `resolvedGoldApiKey`: the trimmed environment key when it is not
      blank, else the hard-coded key when usable, else none. */
  function ResolveGoldApiKey(env: Option<string>): (r: Option<string>)
    ensures NonBlank(env) ==> r == Some(Trim(env.value))
    ensures !NonBlank(env) ==> r == None
  {
    if NonBlank(env) then Some(Trim(env.value))
    else if FallbackUsable(HardcodedGoldApiKey) then Some(Trim(HardcodedGoldApiKey))
    else None
  }

  /** The hard-coded fallback is compared with its own text, so it never
      fires: GoldAPI.io is configured exactly when the environment key is
      not blank. */
  lemma FallbackNeverFires(env: Option<string>)
    ensures ResolveGoldApiKey(env).Some? <==> NonBlank(env)
    ensures !FallbackUsable(HardcodedGoldApiKey)
  {
  }

  /** The provider list the pushes build. */
  function ProviderList(metalsApiKey: Option<string>, goldApiKey: Option<string>): seq<ProviderId> {
    Lineup(if NonBlank(metalsApiKey) then metalsApiKey else None, ResolveGoldApiKey(goldApiKey))
  }

  /** The pushes once the keys are resolved: the two keyless providers,
      then Metals-API and GoldAPI.io when they have a key. */
  function Lineup(metalsKey: Option<string>, goldKey: Option<string>): seq<ProviderId> {
    [GoldPrice, Stooq]
      + (if metalsKey.Some? then [MetalsApi(metalsKey.value)] else [])
      + (if goldKey.Some? then [GoldApiIo(goldKey.value)] else [])
  }

  /** The conditional pushes at the top of `onRequest`. */
  method AssembleProviders(metalsApiKey: Option<string>, goldApiKey: Option<string>)
    returns (providers: seq<ProviderId>)
    ensures providers == ProviderList(metalsApiKey, goldApiKey)
  {
    providers := [];
    providers := providers + [GoldPrice];
    providers := providers + [Stooq];
    if metalsApiKey.Some? && !IsBlank(metalsApiKey.value) {
      providers := providers + [MetalsApi(metalsApiKey.value)];
    }
    var resolvedGoldApiKey: Option<string> := None;
    if goldApiKey.Some? && !IsBlank(goldApiKey.value) {
      resolvedGoldApiKey := Some(Trim(goldApiKey.value));
    }
    if resolvedGoldApiKey.None? && HardcodedGoldApiKey != GoldApiKeyPlaceholder && !IsBlank(HardcodedGoldApiKey) {
      resolvedGoldApiKey := Some(Trim(HardcodedGoldApiKey));
    }
    if resolvedGoldApiKey.Some? {
      providers := providers + [GoldApiIo(resolvedGoldApiKey.value)];
    }
  }

  /** GoldPrice and Stooq always come first, in that order; Metals-API is
      present exactly when its key is not blank and gets the key as given;
      GoldAPI.io is present exactly when its key is not blank and gets the
      trimmed key; it is always last. */
  lemma ProviderListShape(metalsApiKey: Option<string>, goldApiKey: Option<string>)
    ensures var ps := ProviderList(metalsApiKey, goldApiKey);
      2 <= |ps| <= 4 && ps[0] == GoldPrice && ps[1] == Stooq
      && (forall i :: 1 <= i < |ps| ==> ps[i] != GoldPrice)
      && (NonBlank(metalsApiKey) <==> MetalsApi(metalsApiKey.GetOr("")) in ps)
      && (NonBlank(goldApiKey) <==> ps[|ps| - 1].GoldApiIo?)
      && (NonBlank(goldApiKey) ==> ps[|ps| - 1] == GoldApiIo(Trim(goldApiKey.value)))
  {
    var metalsKey := if NonBlank(metalsApiKey) then metalsApiKey else None;
    var goldKey := ResolveGoldApiKey(goldApiKey);
    assert goldKey.Some? <==> NonBlank(goldApiKey);
    assert metalsKey.Some? <==> NonBlank(metalsApiKey);
    var ps := ProviderList(metalsApiKey, goldApiKey);
    assert ps == Lineup(metalsKey, goldKey);
    LineupShape(metalsKey, goldKey);
    assert ps[|ps| - 1].GoldApiIo? <==> goldKey.Some?;
  }

  /** The shape of the list once the keys are resolved. */
  lemma LineupShape(metalsKey: Option<string>, goldKey: Option<string>)
    ensures var ps := Lineup(metalsKey, goldKey);
      2 <= |ps| <= 4 && ps[0] == GoldPrice && ps[1] == Stooq
      && (forall i :: 1 <= i < |ps| ==> ps[i] != GoldPrice)
      && (forall key :: MetalsApi(key) in ps <==> metalsKey == Some(key))
      && (goldKey.Some? <==> ps[|ps| - 1].GoldApiIo?)
      && (goldKey.Some? ==> ps[|ps| - 1] == GoldApiIo(goldKey.value))
  {
    var ps := Lineup(metalsKey, goldKey);
    var last: seq<ProviderId> := if goldKey.Some? then [GoldApiIo(goldKey.value)] else [];
    if metalsKey.Some? {
      assert ps == [GoldPrice, Stooq, MetalsApi(metalsKey.value)] + last;
    } else {
      assert ps == [GoldPrice, Stooq] + last;
    }
  }

  // ---------------------------------------------------------------------
  // Settled results and the report loop
  // ---------------------------------------------------------------------

  /** A settled provider promise. */
  datatype Settled = Fulfilled(value: Quote) | Rejected(reason: string)

  /** The settlement of an adapter's result: a thrown `Error` becomes its
      `String(...)` text. */
  function Settle(r: Result<Quote, string>): (s: Settled)
    ensures s.Fulfilled? <==> r.Success?
    ensures s.Fulfilled? ==> s.value == r.value
    ensures s.Rejected? ==> s.reason == "Error: " + r.error
  {
    match r
    case Success(q) => Fulfilled(q)
    case Failure(e) => Rejected("Error: " + e)
  }

  /** An entry of `providers` in the response. */
  datatype ReportEntry = ReportEntry(name: string, kind: string, ok: bool, price: Option<real>, error: Option<string>)

  function ReportFor(s: Settled): (e: ReportEntry)
    ensures e.ok <==> s.Fulfilled?
    ensures s.Fulfilled? ==>
      e == ReportEntry(s.value.name, KindName(s.value.kind), true, Some(s.value.price), None)
    ensures s.Rejected? ==> e == ReportEntry(UnknownLabel, UnknownLabel, false, None, Some(s.reason))
  {
    match s
    case Fulfilled(q) => ReportEntry(q.name, KindName(q.kind), true, Some(q.price), None)
    case Rejected(reason) => ReportEntry(UnknownLabel, UnknownLabel, false, None, Some(reason))
  }

  /** The report: one entry per settled result, in provider order. */
  function Report(settled: seq<Settled>): (report: seq<ReportEntry>)
    ensures |report| == |settled|
    ensures forall i :: 0 <= i < |settled| ==> report[i] == ReportFor(settled[i])
  {
    seq(|settled|, i requires 0 <= i < |settled| => ReportFor(settled[i]))
  }

  /** A result that writes into lane `k`. */
  predicate Feeds(s: Settled, k: Kind) {
    s.Fulfilled? && s.value.kind == k
  }

  /** The lane `k` after the loop: the price of the last fulfilled result of
      kind `k`, or none. */
  function LastPrice(settled: seq<Settled>, k: Kind): Option<real> {
    if settled == [] then None
    else
      var last := settled[|settled| - 1];
      if Feeds(last, k) then Some(last.value.price) else LastPrice(settled[..|settled| - 1], k)
  }

  /** The loop over the settled results: report every provider, overwrite
      the lane of each fulfilled one. */
  method ReportLoop(settled: seq<Settled>)
    returns (retail: Option<real>, market: Option<real>, report: seq<ReportEntry>)
    ensures retail == LastPrice(settled, Retail)
    ensures market == LastPrice(settled, Market)
    ensures report == Report(settled)
  {
    retail, market, report := None, None, [];
    for i := 0 to |settled|
      invariant retail == LastPrice(settled[..i], Retail)
      invariant market == LastPrice(settled[..i], Market)
      invariant report == Report(settled[..i])
    {
      assert settled[..i + 1][..i] == settled[..i];
      var result := settled[i];
      match result {
        case Fulfilled(payload) =>
          report := report + [ReportEntry(payload.name, KindName(payload.kind), true, Some(payload.price), None)];
          if payload.kind == Retail {
            retail := Some(payload.price);
          }
          if payload.kind == Market {
            market := Some(payload.price);
          }
        case Rejected(reason) =>
          report := report + [ReportEntry(UnknownLabel, UnknownLabel, false, None, Some(reason))];
      }
    }
    assert settled[..|settled|] == settled;
  }

  /** A lane is empty exactly when no result of its kind was fulfilled. */
  lemma {:induction false} LastPriceNone(settled: seq<Settled>, k: Kind)
    ensures LastPrice(settled, k).None? <==> forall i :: 0 <= i < |settled| ==> !Feeds(settled[i], k)
  {
    if settled != [] {
      var n := |settled| - 1;
      LastPriceNone(settled[..n], k);
      assert forall i :: 0 <= i < n ==> settled[..n][i] == settled[i];
    }
  }

  /** Last writer wins: the fulfilled result of kind `k` after which no
      other of that kind follows sets the lane. */
  lemma {:induction false} LastPriceIsLastWriter(settled: seq<Settled>, k: Kind, i: nat)
    requires i < |settled| && Feeds(settled[i], k)
    requires forall j :: i < j < |settled| ==> !Feeds(settled[j], k)
    ensures LastPrice(settled, k) == Some(settled[i].value.price)
  {
    var n := |settled| - 1;
    if i < n {
      assert !Feeds(settled[n], k);
      assert settled[..n][i] == settled[i];
      assert forall j :: i < j < n ==> settled[..n][j] == settled[j];
      LastPriceIsLastWriter(settled[..n], k, i);
    }
  }

  /** Conversely, a lane value comes from such a last writer. */
  lemma {:induction false} LastPriceHasWriter(settled: seq<Settled>, k: Kind)
    requires LastPrice(settled, k).Some?
    ensures exists i :: (0 <= i < |settled| && Feeds(settled[i], k)
                         && settled[i].value.price == LastPrice(settled, k).value
                         && forall j :: i < j < |settled| ==> !Feeds(settled[j], k))
  {
    var n := |settled| - 1;
    var v := LastPrice(settled, k).value;
    if Feeds(settled[n], k) {
      assert settled[n].value.price == v;
    } else {
      var prefix := settled[..n];
      assert LastPrice(prefix, k) == LastPrice(settled, k);
      LastPriceHasWriter(prefix, k);
      var i :| 0 <= i < n && Feeds(prefix[i], k) && prefix[i].value.price == v
        && forall j :: i < j < n ==> !Feeds(prefix[j], k);
      assert prefix[i] == settled[i];
      assert forall j :: i < j < |settled| ==> !Feeds(settled[j], k) by {
        forall j | i < j < |settled| ensures !Feeds(settled[j], k) {
          if j < n {
            assert prefix[j] == settled[j];
          }
        }
      }
    }
  }

  // ---------------------------------------------------------------------
  // Collected prices and the response
  // ---------------------------------------------------------------------

  predicate Usable(lane: Option<real>) {
    lane.Some? && lane.value > 0.0
  }

  /** `collectedPrices_Array`: the retail lane, then the market lane, each
      only when finite and positive. */
  function Collected(retail: Option<real>, market: Option<real>): (c: seq<real>)
    ensures |c| == (if Usable(retail) then 1 else 0) + (if Usable(market) then 1 else 0)
    ensures forall x :: x in c ==> x > 0.0
    ensures Usable(retail) ==> c[0] == retail.value
    ensures Usable(market) ==> c[|c| - 1] == market.value
  {
    (if Usable(retail) then [retail.value] else []) + (if Usable(market) then [market.value] else [])
  }

  datatype Body =
    | ErrorBody(error: string)
    | SpotBody(metal: Metal, priceUsdPerTroyOunce: Option<real>, usedCount: nat, fetchedOkCount: nat,
               updatedAtUtcIso: string, marketPriceUsdPerTroyOunce: Option<real>,
               retailPriceUsdPerTroyOunce: Option<real>, providers: seq<ReportEntry>)

  datatype Response = Response(status: int, body: Body)

  /** The body built after the loop. */
  function Summarize(metal: Metal, retail: Option<real>, market: Option<real>,
                     report: seq<ReportEntry>, updatedAt: string): (b: Body)
    ensures b.SpotBody? && b.metal == metal && b.providers == report && b.updatedAtUtcIso == updatedAt
  {
    var collected := Collected(retail, market);
    if |collected| == 0 then SpotBody(metal, None, 0, 0, updatedAt, None, None, report)
    else SpotBody(metal, Median(collected), |collected|, |collected|, updatedAt, market, retail, report)
  }

  /** Nothing collected: every price field is null and both counts are 0. */
  lemma NothingCollected(metal: Metal, retail: Option<real>, market: Option<real>,
                         report: seq<ReportEntry>, updatedAt: string)
    requires !Usable(retail) && !Usable(market)
    ensures Summarize(metal, retail, market, report, updatedAt)
      == SpotBody(metal, None, 0, 0, updatedAt, None, None, report)
  {
  }

  /** With usable lanes the main price is the single lane value or the
      average of the two, both counts are the number of usable lanes, and
      the lanes are echoed unchanged. */
  lemma MainPriceFromLanes(metal: Metal, retail: Option<real>, market: Option<real>,
                           report: seq<ReportEntry>, updatedAt: string)
    requires Usable(retail) || Usable(market)
    ensures var b := Summarize(metal, retail, market, report, updatedAt);
      b.usedCount == b.fetchedOkCount == |Collected(retail, market)|
      && b.retailPriceUsdPerTroyOunce == retail && b.marketPriceUsdPerTroyOunce == market
      && b.priceUsdPerTroyOunce ==
           Some(if Usable(retail) && Usable(market) then (retail.value + market.value) / 2.0
                else if Usable(retail) then retail.value
                else market.value)
  {
    if Usable(retail) && Usable(market) {
      assert Collected(retail, market) == [retail.value, market.value];
      MedianOfTwo(retail.value, market.value);
    } else if Usable(retail) {
      assert Collected(retail, market) == [retail.value];
      MedianOfOne(retail.value);
    } else {
      assert Collected(retail, market) == [market.value];
      MedianOfOne(market.value);
    }
  }

  /** What one provider's fetch produced: either it threw (the network
      failed or the body could not be decoded), with the text `String(...)`
      gives for the error, or the service answered with a status and a
      body, of which each adapter reads its own part. */
  datatype Exchange =
    | Threw(reason: string)
    | Answered(status: nat, items: Option<seq<GoldPriceItem>>, text: string,
               rates: Option<map<string, Option<real>>>, price: Option<real>)

  /** `providerFunction(metal)` settled: the provider's adapter applied to
      its exchange. A fulfilled result is tagged with the provider's own
      name and lane and has a positive price; a thrown error or a failed
      HTTP status rejects. */
  function Invoke(p: ProviderId, metal: Metal, ex: Exchange, toNumber: string -> Option<real>): (s: Settled)
    ensures ex.Threw? ==> s == Rejected(ex.reason)
    ensures ex.Answered? && !IsOk(ex.status) ==> s.Rejected?
    ensures s.Fulfilled? ==>
      s.value.name == ProviderName(p) && s.value.kind == KindOf(p) && s.value.price > 0.0
  {
    match ex
    case Threw(reason) => Rejected(reason)
    case Answered(status, items, text, rates, price) =>
      var r := match p
        case GoldPrice => FromGoldPriceOrg(metal, status, items)
        case Stooq => FromStooq(status, text, toNumber)
        case MetalsApi(_) => FromMetalsApi(metal, status, rates)
        case GoldApiIo(_) => FromGoldApiIo(status, price);
      Settle(r)
  }

  /** `Promise.allSettled` over the providers: one settled result per
      provider, in provider order. The exchanges are an input, one per
      provider and metal. */
  function SettledFor(providers: seq<ProviderId>, metal: Metal, exchange: (ProviderId, Metal) -> Exchange,
                      toNumber: string -> Option<real>): (s: seq<Settled>)
    ensures |s| == |providers|
    ensures forall i :: 0 <= i < |providers| ==>
      s[i] == Invoke(providers[i], metal, exchange(providers[i], metal), toNumber)
  {
    seq(|providers|, i requires 0 <= i < |providers| => Invoke(providers[i], metal, exchange(providers[i], metal), toNumber))
  }

  /** The body answered to a valid request. */
  function ReplyBody(metal: Metal, metalsApiKey: Option<string>, goldApiKey: Option<string>,
                     exchange: (ProviderId, Metal) -> Exchange, toNumber: string -> Option<real>,
                     updatedAt: string): Body
  {
    var settled := SettledFor(ProviderList(metalsApiKey, goldApiKey), metal, exchange, toNumber);
    Summarize(metal, LastPrice(settled, Retail), LastPrice(settled, Market), Report(settled), updatedAt)
  }

  /** The report lists every configured provider exactly once, in order,
      whether it succeeded or not. */
  lemma ReportCoversProviders(metal: Metal, metalsApiKey: Option<string>, goldApiKey: Option<string>,
                              exchange: (ProviderId, Metal) -> Exchange, toNumber: string -> Option<real>,
                              updatedAt: string)
    ensures var b := ReplyBody(metal, metalsApiKey, goldApiKey, exchange, toNumber, updatedAt);
      var ps := ProviderList(metalsApiKey, goldApiKey);
      b.SpotBody? && |b.providers| == |ps|
      && forall i :: 0 <= i < |ps| ==>
           b.providers[i] == ReportFor(Invoke(ps[i], metal, exchange(ps[i], metal), toNumber))
  {
  }

  /** The lanes of the reply in provider terms: the retail price is
      GoldPrice's when GoldPrice succeeded and null otherwise; the market
      price is null exactly when every other provider failed, and otherwise
      it is the price of the last of them that succeeded. */
  lemma ReplyLanes(metal: Metal, metalsApiKey: Option<string>, goldApiKey: Option<string>,
                   exchange: (ProviderId, Metal) -> Exchange, toNumber: string -> Option<real>,
                   updatedAt: string)
    ensures var ps := ProviderList(metalsApiKey, goldApiKey);
      var settled := SettledFor(ps, metal, exchange, toNumber);
      var b := ReplyBody(metal, metalsApiKey, goldApiKey, exchange, toNumber, updatedAt);
      && b.SpotBody?
      && b.retailPriceUsdPerTroyOunce == (if settled[0].Fulfilled? then Some(settled[0].value.price) else None)
      && (b.marketPriceUsdPerTroyOunce.None? <==> forall i :: 1 <= i < |ps| ==> settled[i].Rejected?)
      && (forall i :: 1 <= i < |ps| && settled[i].Fulfilled?
            && (forall j :: i < j < |ps| ==> settled[j].Rejected?)
            ==> b.marketPriceUsdPerTroyOunce == Some(settled[i].value.price))
  {
    var ps := ProviderList(metalsApiKey, goldApiKey);
    var settled := SettledFor(ps, metal, exchange, toNumber);
    SettledKinds(metalsApiKey, goldApiKey, metal, exchange, toNumber);
    LanesOfSummary(metal, settled, updatedAt);
  }

  /** Of the settled results, only GoldPrice's can be a retail quote; every
      other fulfilled one is a market quote. All prices are positive. */
  lemma SettledKinds(metalsApiKey: Option<string>, goldApiKey: Option<string>, metal: Metal,
                     exchange: (ProviderId, Metal) -> Exchange, toNumber: string -> Option<real>)
    ensures var settled := SettledFor(ProviderList(metalsApiKey, goldApiKey), metal, exchange, toNumber);
      && |settled| >= 1
      && forall i :: 0 <= i < |settled| && settled[i].Fulfilled? ==>
           settled[i].value.kind == (if i == 0 then Retail else Market) && settled[i].value.price > 0.0
  {
    ProviderListShape(metalsApiKey, goldApiKey);
  }

  /** The lanes of the body built from settled results of which only the
      first can feed the retail lane and all others the market lane. */
  lemma LanesOfSummary(metal: Metal, settled: seq<Settled>, updatedAt: string)
    requires |settled| >= 1
    requires forall i :: 0 <= i < |settled| && settled[i].Fulfilled? ==>
      settled[i].value.kind == (if i == 0 then Retail else Market) && settled[i].value.price > 0.0
    ensures var b := Summarize(metal, LastPrice(settled, Retail), LastPrice(settled, Market), Report(settled), updatedAt);
      && b.SpotBody?
      && b.retailPriceUsdPerTroyOunce == (if settled[0].Fulfilled? then Some(settled[0].value.price) else None)
      && (b.marketPriceUsdPerTroyOunce.None? <==> forall i :: 1 <= i < |settled| ==> settled[i].Rejected?)
      && (forall i :: 1 <= i < |settled| && settled[i].Fulfilled?
            && (forall j :: i < j < |settled| ==> settled[j].Rejected?)
            ==> b.marketPriceUsdPerTroyOunce == Some(settled[i].value.price))
  {
    var retail, market := LastPrice(settled, Retail), LastPrice(settled, Market);
    RetailLane(settled);
    MarketLane(settled);
    LanesPositive(settled, Retail);
    LanesPositive(settled, Market);
    LanesEchoed(metal, retail, market, Report(settled), updatedAt);
  }

  /** Only the first result can feed the retail lane: the lane is its price
      when it was fulfilled, and empty otherwise. */
  lemma RetailLane(settled: seq<Settled>)
    requires |settled| >= 1
    requires forall i :: 0 <= i < |settled| && settled[i].Fulfilled? ==>
      settled[i].value.kind == (if i == 0 then Retail else Market)
    ensures LastPrice(settled, Retail) == if settled[0].Fulfilled? then Some(settled[0].value.price) else None
  {
    if settled[0].Fulfilled? {
      LastPriceIsLastWriter(settled, Retail, 0);
    } else {
      LastPriceNone(settled, Retail);
    }
  }

  /** Every result after the first feeds the market lane when fulfilled:
      the lane is empty exactly when they all failed, and otherwise holds
      the price of the last of them that succeeded. */
  lemma MarketLane(settled: seq<Settled>)
    requires |settled| >= 1
    requires forall i :: 0 <= i < |settled| && settled[i].Fulfilled? ==>
      settled[i].value.kind == (if i == 0 then Retail else Market)
    ensures LastPrice(settled, Market).None? <==> forall i :: 1 <= i < |settled| ==> settled[i].Rejected?
    ensures forall i :: (1 <= i < |settled| && settled[i].Fulfilled?
                         && (forall j :: i < j < |settled| ==> settled[j].Rejected?)
                         ==> LastPrice(settled, Market) == Some(settled[i].value.price))
  {
    LastPriceNone(settled, Market);
    forall i | 1 <= i < |settled| && settled[i].Fulfilled? && (forall j :: i < j < |settled| ==> settled[j].Rejected?)
      ensures LastPrice(settled, Market) == Some(settled[i].value.price)
    {
      LastPriceIsLastWriter(settled, Market, i);
    }
  }

  /** A lane only ever holds a positive price when every fulfilled result
      has one. */
  lemma LanesPositive(settled: seq<Settled>, k: Kind)
    requires forall i :: 0 <= i < |settled| && settled[i].Fulfilled? ==> settled[i].value.price > 0.0
    ensures LastPrice(settled, k).Some? ==> LastPrice(settled, k).value > 0.0
  {
    if LastPrice(settled, k).Some? {
      LastPriceHasWriter(settled, k);
    }
  }

  /** Lanes that are null or positive are echoed into the body as they are. */
  lemma LanesEchoed(metal: Metal, retail: Option<real>, market: Option<real>,
                    report: seq<ReportEntry>, updatedAt: string)
    requires retail.Some? ==> retail.value > 0.0
    requires market.Some? ==> market.value > 0.0
    ensures var b := Summarize(metal, retail, market, report, updatedAt);
      b.retailPriceUsdPerTroyOunce == retail && b.marketPriceUsdPerTroyOunce == market
  {
  }

  /** `onRequest`: an invalid metal is refused with 400 before any provider
      is called; otherwise the providers are assembled and called, and the
      body is built from their settled results with status 200 (also when
      nothing was collected). */
  method OnRequest(metalParam: Option<string>, metalsApiKey: Option<string>, goldApiKey: Option<string>,
                   exchange: (ProviderId, Metal) -> Exchange, toNumber: string -> Option<real>,
                   updatedAt: string)
    returns (resp: Response)
    ensures ParseMetalParam(metalParam).None? ==> resp == Response(400, ErrorBody(InvalidMetalMessage))
    ensures ParseMetalParam(metalParam).Some? ==>
      resp == Response(200, ReplyBody(ParseMetalParam(metalParam).value, metalsApiKey, goldApiKey, exchange, toNumber, updatedAt))
  {
    var parsed := ParseMetalParam(metalParam);
    if parsed.None? {
      return Response(400, ErrorBody(InvalidMetalMessage));
    }
    var metal := parsed.value;
    var providers := AssembleProviders(metalsApiKey, goldApiKey);
    var settled := SettledFor(providers, metal, exchange, toNumber);
    var retail, market, report := ReportLoop(settled);
    var collected := Collected(retail, market);
    if |collected| == 0 {
      return Response(200, SpotBody(metal, None, 0, 0, updatedAt, None, None, report));
    }
    var mainPrice := Median(collected);
    return Response(200, SpotBody(metal, mainPrice, |collected|, |collected|, updatedAt, market, retail, report));
  }
}
