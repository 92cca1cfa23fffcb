/** The portfolio page's figures: the seed totals computed from a catalog
    holding's listed purchases, the spot-price cache the page keeps and
    merges after each backend refresh, and the per-row and total values of
    the holdings table, both at the user's own market prices and at the
    spot estimate. A number that is missing or not finite is `None`. */
module PortfolioFigures {
  import opened Basics
  import opened PortfolioLedger

  // ---------------------------------------------------------------------
  // Seed totals from the catalog's purchase lists
  // ---------------------------------------------------------------------

  /** One listed purchase, each field as `Number(...)` sees it after the
      source's defaulting: a missing `Units` or `PricePerUnit` reads as
      `Some(0.0)`, a missing explicit total as `None`. */
  datatype SeedPurchase = SeedPurchase(units: Option<real>, pricePerUnit: Option<real>, totalPaid: Option<real>)

  /** What one purchase adds to the units total. */
  function UnitsOf(p: SeedPurchase): (u: real)
    ensures u >= 0.0
    ensures u > 0.0 <==> p.units.Some? && p.units.value > 0.0
    ensures u > 0.0 ==> u == p.units.value
  {
    if p.units.Some? && p.units.value > 0.0 then p.units.value else 0.0
  }

  /** What one purchase adds to the total paid: its explicit total when
      that is a non-negative number, else units times price when the units
      are positive and the price is not negative, else nothing. */
  function PaidOf(p: SeedPurchase): (t: real)
    ensures t >= 0.0
    ensures p.totalPaid.Some? && p.totalPaid.value >= 0.0 ==> t == p.totalPaid.value
    ensures ((p.totalPaid.None? || p.totalPaid.value < 0.0) && p.units.Some? && p.pricePerUnit.Some?
             && p.units.value > 0.0 && p.pricePerUnit.value >= 0.0) ==> t == p.units.value * p.pricePerUnit.value
  {
    if p.totalPaid.Some? && p.totalPaid.value >= 0.0 then p.totalPaid.value
    else if p.units.Some? && p.pricePerUnit.Some? && p.units.value > 0.0 && p.pricePerUnit.value >= 0.0 then
      p.units.value * p.pricePerUnit.value
    else 0.0
  }

  function SumUnits(ps: seq<SeedPurchase>): real {
    if ps == [] then 0.0 else SumUnits(ps[..|ps| - 1]) + UnitsOf(ps[|ps| - 1])
  }

  function SumPaid(ps: seq<SeedPurchase>): real {
    if ps == [] then 0.0 else SumPaid(ps[..|ps| - 1]) + PaidOf(ps[|ps| - 1])
  }

  /** Both seed totals are never negative, and each is at least what any
      single purchase contributes. */
  lemma {:induction false} SeedTotalsBounds(ps: seq<SeedPurchase>)
    ensures SumUnits(ps) >= 0.0 && SumPaid(ps) >= 0.0
    ensures forall i :: 0 <= i < |ps| ==> UnitsOf(ps[i]) <= SumUnits(ps) && PaidOf(ps[i]) <= SumPaid(ps)
  {
    if ps != [] {
      var prefix := ps[..|ps| - 1];
      SeedTotalsBounds(prefix);
      assert forall i :: 0 <= i < |prefix| ==> ps[i] == prefix[i];
    }
  }

  /** Purchases with no positive units add nothing to the units total. */
  lemma {:induction false} NoUnitsNoTotal(ps: seq<SeedPurchase>)
    requires forall i :: 0 <= i < |ps| ==> ps[i].units.None? || ps[i].units.value <= 0.0
    ensures SumUnits(ps) == 0.0
  {
    if ps != [] {
      NoUnitsNoTotal(ps[..|ps| - 1]);
    }
  }

  /** `CalculatePurchases_TotalUnits_Number`: `None` is a value that is not
      an array. */
  method TotalUnits(purchases: Option<seq<SeedPurchase>>) returns (sum: real)
    ensures purchases.None? ==> sum == 0.0
    ensures purchases.Some? ==> sum == SumUnits(purchases.value)
    ensures sum >= 0.0
  {
    sum := 0.0;
    if purchases.None? {
      return;
    }
    var ps := purchases.value;
    for i := 0 to |ps|
      invariant sum == SumUnits(ps[..i])
    {
      assert ps[..i + 1][..i] == ps[..i];
      var units := ps[i].units;
      if units.Some? && units.value > 0.0 {
        sum := sum + units.value;
      }
    }
    assert ps[..|ps|] == ps;
    SeedTotalsBounds(ps);
  }

  /** `CalculatePurchases_TotalPaid_Number`. */
  method TotalPaid(purchases: Option<seq<SeedPurchase>>) returns (sum: real)
    ensures purchases.None? ==> sum == 0.0
    ensures purchases.Some? ==> sum == SumPaid(purchases.value)
    ensures sum >= 0.0
  {
    sum := 0.0;
    if purchases.None? {
      return;
    }
    var ps := purchases.value;
    for i := 0 to |ps|
      invariant sum == SumPaid(ps[..i])
    {
      assert ps[..i + 1][..i] == ps[..i];
      var p := ps[i];
      if p.totalPaid.Some? && p.totalPaid.value >= 0.0 {
        sum := sum + p.totalPaid.value;
        continue;
      }
      if p.units.Some? && p.pricePerUnit.Some? && p.units.value > 0.0 && p.pricePerUnit.value >= 0.0 {
        sum := sum + p.units.value * p.pricePerUnit.value;
      }
    }
    assert ps[..|ps|] == ps;
    SeedTotalsBounds(ps);
  }

  /** A holding of the catalog. */
  datatype Holding = Holding(
    holdingId: string,
    metalCode: string,
    ouncesPerUnit: Option<real>,
    marketPricePerUnitDefault: Option<real>,
    purchases: Option<seq<SeedPurchase>>)

  /** `CreateOwnedState_DefaultForHolding_FromCatalog`: the seed totals and
      the catalog's default price when it is positive, else 0. */
  function DefaultOwned(h: Holding): (o: Owned)
    ensures o.unitsOwned >= 0.0 && o.totalPaidOwned >= 0.0 && o.lastKnownMarketPricePerUnit >= 0.0
    ensures h.purchases.None? ==> o.unitsOwned == 0.0 && o.totalPaidOwned == 0.0
    ensures h.purchases.Some? ==> o.unitsOwned == SumUnits(h.purchases.value) && o.totalPaidOwned == SumPaid(h.purchases.value)
    ensures o.lastKnownMarketPricePerUnit > 0.0 <==> h.marketPricePerUnitDefault.Some? && h.marketPricePerUnitDefault.value > 0.0
  {
    var lastPrice := PositivePrice(h.marketPricePerUnitDefault);
    if h.purchases.None? then Owned(0.0, 0.0, lastPrice)
    else
      SeedTotalsBounds(h.purchases.value);
      Owned(SumUnits(h.purchases.value), SumPaid(h.purchases.value), lastPrice)
  }

  predicate Covers(catalog: seq<Holding>, owned: map<string, Owned>) {
    forall i :: 0 <= i < |catalog| ==> catalog[i].holdingId in owned
  }

  /** The owned state seeded from the catalog: each holding's default
      entry under its id, a later holding with the same id replacing an
      earlier one. */
  function SeededOwned(catalog: seq<Holding>): (owned: map<string, Owned>)
    ensures Covers(catalog, owned)
    ensures forall k :: k in owned ==> exists i :: 0 <= i < |catalog| && catalog[i].holdingId == k
    ensures NonNegative(Ledger(Some(owned), map[], []))
  {
    if catalog == [] then map[]
    else
      var prefix := catalog[..|catalog| - 1];
      var h := catalog[|catalog| - 1];
      var owned := SeededOwned(prefix)[h.holdingId := DefaultOwned(h)];
      assert forall i :: 0 <= i < |prefix| ==> catalog[i] == prefix[i];
      owned
  }

  /** `EnsureOwnedStateSeeded_FromCatalogIfMissing`: stored owned state is
      kept; a missing one is replaced by the seeded state, which covers the
      catalog and is non-negative. */
  function EnsureSeeded(L: Ledger, catalog: seq<Holding>): (M: Ledger)
    ensures L.owned.Some? ==> M == L
    ensures L.owned.None? ==> M == L.(owned := Some(SeededOwned(catalog)))
    ensures L.owned.None? ==> Covers(catalog, M.owned.value) && NonNegative(M)
  {
    if L.owned.Some? then L else L.(owned := Some(SeededOwned(catalog)))
  }

  // ---------------------------------------------------------------------
  // Backend spot readings and the page's spot cache
  // ---------------------------------------------------------------------

  type SpotPrice = r: real | r > 0.0 witness 1.0

  /** The parts of a `/api/spot` JSON body the page reads. */
  datatype SpotJson = SpotJson(
    priceUsdPerTroyOunce: Option<real>,
    usedCount: Option<nat>,
    fetchedOkCount: Option<nat>,
    updatedAtUtcIso: Option<string>)

  /** A reading `FetchSpotForMetalAsync` accepts. */
  datatype SpotReading = SpotReading(
    metal: string,
    price: SpotPrice,
    usedCount: Option<nat>,
    fetchedOkCount: Option<nat>,
    updatedAtUtcIso: Option<string>)

  /** `FetchSpotForMetalAsync` on a response with that status and body; the
      failure is the message of the thrown error. */
  function FetchSpotForMetal(metalCode: string, status: nat, json: SpotJson): (r: Result<SpotReading, string>)
    ensures !IsOk(status) ==> r == Failure("HTTP " + NatToString(status))
    ensures IsOk(status) && (json.priceUsdPerTroyOunce.None? || json.priceUsdPerTroyOunce.value <= 0.0) ==>
      r == Failure("Invalid spot price payload for " + metalCode)
    ensures r.Success? <==> IsOk(status) && json.priceUsdPerTroyOunce.Some? && json.priceUsdPerTroyOunce.value > 0.0
    ensures r.Success? ==>
      && r.value.metal == metalCode
      && r.value.price as real == json.priceUsdPerTroyOunce.value
      && r.value.usedCount == json.usedCount && r.value.fetchedOkCount == json.fetchedOkCount
      && (r.value.updatedAtUtcIso.Some? <==> json.updatedAtUtcIso.Some? && Trim(json.updatedAtUtcIso.value) != "")
      && (r.value.updatedAtUtcIso.Some? ==> r.value.updatedAtUtcIso == json.updatedAtUtcIso)
  {
    if !IsOk(status) then Failure("HTTP " + NatToString(status))
    else if json.priceUsdPerTroyOunce.None? || json.priceUsdPerTroyOunce.value <= 0.0 then
      Failure("Invalid spot price payload for " + metalCode)
    else
      var updatedAt := if json.updatedAtUtcIso.Some? && Trim(json.updatedAtUtcIso.value) != "" then json.updatedAtUtcIso else None;
      Success(SpotReading(metalCode, json.priceUsdPerTroyOunce.value, json.usedCount, json.fetchedOkCount, updatedAt))
  }

  /** The settled outcome of one fetch as `Promise.allSettled` reports it;
      a rejection carries `String(reason)`, which for a thrown `Error` is
      "Error: " followed by its message. */
  function SettledFetch(metalCode: string, status: nat, json: SpotJson): (r: Result<SpotReading, string>)
    ensures r.Success? <==> FetchSpotForMetal(metalCode, status, json).Success?
    ensures r.Success? ==> r == FetchSpotForMetal(metalCode, status, json)
    ensures r.Failure? ==> r.error == "Error: " + FetchSpotForMetal(metalCode, status, json).error
  {
    match FetchSpotForMetal(metalCode, status, json)
    case Success(reading) => Success(reading)
    case Failure(message) => Failure("Error: " + message)
  }

  /** The page's stored spot cache. */
  datatype SpotCache = SpotCache(
    xau: Option<real>,
    xag: Option<real>,
    lastUpdatedUtcIso: Option<string>,
    sourcesUsedText: Option<string>)

  /** `CreateEmptySpotCacheObject`. */
  const EmptySpotCache := SpotCache(None, None, None, None)

  /** The "Gold sources: used/fetched" part a fulfilled reading with both
      counts contributes. */
  function SourcesPart(heading: string, r: Result<SpotReading, string>): (parts: seq<string>)
    ensures |parts| <= 1
    ensures |parts| == 1 <==> r.Success? && r.value.usedCount.Some? && r.value.fetchedOkCount.Some?
  {
    if r.Success? && r.value.usedCount.Some? && r.value.fetchedOkCount.Some? then
      [heading + NatToString(r.value.usedCount.value) + "/" + NatToString(r.value.fetchedOkCount.value)]
    else []
  }

  function SourceParts(xau: Result<SpotReading, string>, xag: Result<SpotReading, string>): seq<string> {
    SourcesPart("Gold sources: ", xau) + SourcesPart("Silver sources: ", xag)
  }

  /** `parts.join(sep)` for a string separator. */
  function JoinText(parts: seq<string>, sep: string): string {
    if parts == [] then ""
    else if |parts| == 1 then parts[0]
    else parts[0] + sep + JoinText(parts[1..], sep)
  }

  /** What a refresh stores when at least one fetch was fulfilled: each
      fulfilled metal's new price, the silver timestamp over the gold one
      over the old one, and a fresh sources text when a reading carried
      both counts. */
  function Merged(existing: SpotCache, xau: Result<SpotReading, string>, xag: Result<SpotReading, string>): SpotCache {
    var parts := SourceParts(xau, xag);
    SpotCache(
      if xau.Success? then Some(xau.value.price as real) else existing.xau,
      if xag.Success? then Some(xag.value.price as real) else existing.xag,
      if xag.Success? && xag.value.updatedAtUtcIso.Some? then xag.value.updatedAtUtcIso
      else if xau.Success? && xau.value.updatedAtUtcIso.Some? then xau.value.updatedAtUtcIso
      else existing.lastUpdatedUtcIso,
      if parts == [] then existing.sourcesUsedText else Some(JoinText(parts, " | ")))
  }

  /** One message per rejected fetch, gold first. */
  function RefreshErrors(xau: Result<SpotReading, string>, xag: Result<SpotReading, string>): (errors: seq<string>)
    ensures |errors| == (if xau.Failure? then 1 else 0) + (if xag.Failure? then 1 else 0)
    ensures xau.Failure? ==> errors[0] == "Gold refresh failed: " + xau.error
    ensures xag.Failure? ==> errors[|errors| - 1] == "Silver refresh failed: " + xag.error
  {
    (if xau.Failure? then ["Gold refresh failed: " + xau.error] else [])
    + (if xag.Failure? then ["Silver refresh failed: " + xag.error] else [])
  }

  class SpotCacheStore {
    var stored: SpotCache

    constructor(initial: SpotCache)
      ensures stored == initial
    {
      stored := initial;
    }

    /** `RefreshSpotCacheFromBackendAsync` given the two settled fetches:
        the merged cache is saved only when a fetch was fulfilled, and the
        cache read back afterwards is returned with the error lines. */
    method Refresh(xau: Result<SpotReading, string>, xag: Result<SpotReading, string>) returns (cache: SpotCache, errors: seq<string>)
      modifies this
      ensures stored == (if xau.Success? || xag.Success? then Merged(old(stored), xau, xag) else old(stored))
      ensures cache == stored
      ensures errors == RefreshErrors(xau, xag)
    {
      var next := stored;
      var anySuccess := false;
      var parts: seq<string> := [];
      if xau.Success? {
        next := next.(xau := Some(xau.value.price as real));
        anySuccess := true;
        if xau.value.usedCount.Some? && xau.value.fetchedOkCount.Some? {
          parts := parts + ["Gold sources: " + NatToString(xau.value.usedCount.value) + "/" + NatToString(xau.value.fetchedOkCount.value)];
        }
        if xau.value.updatedAtUtcIso.Some? {
          next := next.(lastUpdatedUtcIso := xau.value.updatedAtUtcIso);
        }
      }
      if xag.Success? {
        next := next.(xag := Some(xag.value.price as real));
        anySuccess := true;
        if xag.value.usedCount.Some? && xag.value.fetchedOkCount.Some? {
          parts := parts + ["Silver sources: " + NatToString(xag.value.usedCount.value) + "/" + NatToString(xag.value.fetchedOkCount.value)];
        }
        if xag.value.updatedAtUtcIso.Some? {
          next := next.(lastUpdatedUtcIso := xag.value.updatedAtUtcIso);
        }
      }
      assert parts == SourceParts(xau, xag);
      if |parts| > 0 {
        next := next.(sourcesUsedText := Some(JoinText(parts, " | ")));
      }
      if anySuccess {
        stored := next;
      }
      errors := [];
      if xau.Failure? {
        errors := errors + ["Gold refresh failed: " + xau.error];
      }
      if xag.Failure? {
        errors := errors + ["Silver refresh failed: " + xag.error];
      }
      cache := stored;
    }
  }

  /** A metal's cached price changes only when its fetch was fulfilled,
      and then it becomes that reading's positive price; cached prices that
      were positive or absent stay so. */
  lemma MergeChangesOnlyFulfilledPrices(existing: SpotCache, xau: Result<SpotReading, string>, xag: Result<SpotReading, string>)
    ensures var m := Merged(existing, xau, xag);
      && (m.xau != existing.xau ==> xau.Success? && m.xau == Some(xau.value.price as real))
      && (m.xag != existing.xag ==> xag.Success? && m.xag == Some(xag.value.price as real))
      && (existing.xau.None? || existing.xau.value > 0.0 ==> m.xau.None? || m.xau.value > 0.0)
      && (existing.xag.None? || existing.xag.value > 0.0 ==> m.xag.None? || m.xag.value > 0.0)
  {
  }

  /** A fetch whose body has no positive price is rejected, so it leaves
      the cached price of its metal alone. */
  lemma InvalidPriceKeepsCachedPrice(existing: SpotCache, status: nat, json: SpotJson, xag: Result<SpotReading, string>)
    requires json.priceUsdPerTroyOunce.None? || json.priceUsdPerTroyOunce.value <= 0.0
    ensures var xau := SettledFetch("XAU", status, json);
      && xau.Failure?
      && Merged(existing, xau, xag).xau == existing.xau
      && RefreshErrors(xau, xag)[0] == "Gold refresh failed: Error: " + FetchSpotForMetal("XAU", status, json).error
  {
    var xau := SettledFetch("XAU", status, json);
    assert "Gold refresh failed: " + ("Error: " + FetchSpotForMetal("XAU", status, json).error)
        == "Gold refresh failed: Error: " + FetchSpotForMetal("XAU", status, json).error;
  }

  /** The sources text is replaced exactly when a fulfilled reading carried
      both counts; with two such readings it lists gold, then silver. */
  lemma MergeSourcesText(existing: SpotCache, xau: Result<SpotReading, string>, xag: Result<SpotReading, string>)
    ensures var m := Merged(existing, xau, xag);
      var parts := SourceParts(xau, xag);
      && (parts == [] ==> m.sourcesUsedText == existing.sourcesUsedText)
      && (|parts| == 1 ==> m.sourcesUsedText == Some(parts[0]))
      && (|parts| == 2 ==> m.sourcesUsedText == Some(parts[0] + " | " + parts[1]))
      && (|parts| == 2 ==> parts[0][..14] == "Gold sources: " && parts[1][..16] == "Silver sources: ")
  {
    var parts := SourceParts(xau, xag);
    if |parts| == 2 {
      assert parts[1..] == [parts[1]];
      assert JoinText(parts[1..], " | ") == parts[1];
      var gold := "Gold sources: ";
      var silver := "Silver sources: ";
      var g := NatToString(xau.value.usedCount.value) + "/" + NatToString(xau.value.fetchedOkCount.value);
      var v := NatToString(xag.value.usedCount.value) + "/" + NatToString(xag.value.fetchedOkCount.value);
      assert parts[0] == gold + g && parts[1] == silver + v;
      assert (gold + g)[..14] == gold;
      assert (silver + v)[..16] == silver;
    }
  }

  /** The timestamp of a refresh comes from the silver reading when it has
      one, else from the gold reading, else it is the old one. */
  lemma MergeTimestamp(existing: SpotCache, xau: Result<SpotReading, string>, xag: Result<SpotReading, string>)
    ensures var t := Merged(existing, xau, xag).lastUpdatedUtcIso;
      && (t != existing.lastUpdatedUtcIso ==>
            (xag.Success? && t == xag.value.updatedAtUtcIso) || (xau.Success? && t == xau.value.updatedAtUtcIso))
      && (xau.Failure? && xag.Failure? ==> t == existing.lastUpdatedUtcIso)
  {
  }

  // ---------------------------------------------------------------------
  // The holdings table
  // ---------------------------------------------------------------------

  /** `GetSpotPricePerOunce_ForHolding`: the cached price of the holding's
      metal, after upper-casing and trimming its code. */
  function SpotPricePerOunce(h: Holding, cache: SpotCache): (r: Option<real>)
    ensures ParseMetalParam(Some(h.metalCode)) == Some(XAU) ==> r == cache.xau
    ensures ParseMetalParam(Some(h.metalCode)) == Some(XAG) ==> r == cache.xag
    ensures ParseMetalParam(Some(h.metalCode)).None? ==> r.None?
  {
    match ParseMetalParam(Some(h.metalCode))
    case Some(XAU) => cache.xau
    case Some(XAG) => cache.xag
    case None => None
  }

  /** `GetOuncesPerUnit_ForHolding`: a positive weight, else 0. */
  function OuncesPerUnit(h: Holding): (oz: real)
    ensures oz >= 0.0
    ensures oz > 0.0 <==> h.ouncesPerUnit.Some? && h.ouncesPerUnit.value > 0.0
    ensures oz > 0.0 ==> oz == h.ouncesPerUnit.value
  {
    PositivePrice(h.ouncesPerUnit)
  }

  /** The spot estimate of one unit: spot times ounces when both are
      positive, otherwise none. */
  function SpotEstimatePerUnit(spot: Option<real>, oz: real): (r: Option<real>)
    ensures r.Some? <==> spot.Some? && spot.value > 0.0 && oz > 0.0
    ensures r.Some? ==> r.value == spot.value * oz && r.value > 0.0
  {
    if spot.Some? && spot.value > 0.0 && oz > 0.0 then Some(spot.value * oz) else None
  }

  /** The figures of one table row. */
  datatype Row = Row(
    purchaseNowCost: real,
    totalPaidOwned: real,
    ownedValue: real,
    ownedGainLoss: real,
    spotPricePerUnit: Option<real>,
    ownedValueSpot: Option<real>,
    purchaseNowCostSpot: Option<real>,
    ownedGainLossSpot: Option<real>)

  /** The row of a holding, given its owned state and draft. */
  function RowFor(h: Holding, o: Owned, d: Draft, cache: SpotCache): (row: Row)
    ensures row.ownedGainLoss == row.ownedValue - row.totalPaidOwned
    ensures row.totalPaidOwned == o.totalPaidOwned
    ensures row.ownedValue == o.unitsOwned * o.lastKnownMarketPricePerUnit
    ensures row.purchaseNowCost == d.unitsBeingPurchasedNow.GetOr(0.0) * d.marketPricePerUnitInput.GetOr(0.0)
    ensures row.spotPricePerUnit == SpotEstimatePerUnit(SpotPricePerOunce(h, cache), OuncesPerUnit(h))
    ensures row.ownedValueSpot.Some? <==> row.spotPricePerUnit.Some?
    ensures row.ownedGainLossSpot.Some? <==> row.spotPricePerUnit.Some?
    ensures row.purchaseNowCostSpot.Some? <==> row.spotPricePerUnit.Some?
    ensures row.spotPricePerUnit.Some? ==>
      && row.ownedValueSpot.value == o.unitsOwned * row.spotPricePerUnit.value
      && row.ownedGainLossSpot.value == row.ownedValueSpot.value - row.totalPaidOwned
      && row.purchaseNowCostSpot.value == d.unitsBeingPurchasedNow.GetOr(0.0) * row.spotPricePerUnit.value
  {
    var units := o.unitsOwned;
    var paid := o.totalPaidOwned;
    var draftUnits := d.unitsBeingPurchasedNow.GetOr(0.0);
    var draftPrice := d.marketPricePerUnitInput.GetOr(0.0);
    var value := units * o.lastKnownMarketPricePerUnit;
    var estimate := SpotEstimatePerUnit(SpotPricePerOunce(h, cache), OuncesPerUnit(h));
    var valueSpot := if estimate.Some? then Some(units * estimate.value) else None;
    var costSpot := if estimate.Some? then Some(draftUnits * estimate.value) else None;
    var gainSpot := if valueSpot.Some? then Some(valueSpot.value - paid) else None;
    Row(draftUnits * draftPrice, paid, value, value - paid, estimate, valueSpot, costSpot, gainSpot)
  }

  /** The table's totals. */
  datatype Totals = Totals(
    purchaseNowCost: real,
    totalPaidOwned: real,
    ownedValue: real,
    ownedGainLoss: real,
    purchaseNowCostSpot: real,
    ownedValueSpot: real,
    ownedGainLossSpot: real,
    spotRowsIncluded: nat,
    spotRowsMissing: nat,
    spotIncludedPaid: real)

  const ZeroTotals := Totals(0.0, 0.0, 0.0, 0.0, 0.0, 0.0, 0.0, 0, 0, 0.0)

  /** Adds one row to the totals: the market figures always, the spot
      figures only for a row with a spot estimate. `spotIncludedPaid`
      follows the total paid of the included rows; the page does not show
      it. */
  function AddRow(t: Totals, row: Row): Totals {
    var market := t.(
      purchaseNowCost := t.purchaseNowCost + row.purchaseNowCost,
      totalPaidOwned := t.totalPaidOwned + row.totalPaidOwned,
      ownedValue := t.ownedValue + row.ownedValue,
      ownedGainLoss := t.ownedGainLoss + row.ownedGainLoss);
    if row.ownedValueSpot.Some? && row.ownedGainLossSpot.Some? then
      market.(
        ownedValueSpot := t.ownedValueSpot + row.ownedValueSpot.value,
        ownedGainLossSpot := t.ownedGainLossSpot + row.ownedGainLossSpot.value,
        spotRowsIncluded := t.spotRowsIncluded + 1,
        purchaseNowCostSpot := t.purchaseNowCostSpot + row.purchaseNowCostSpot.GetOr(0.0),
        spotIncludedPaid := t.spotIncludedPaid + row.totalPaidOwned)
    else
      market.(spotRowsMissing := t.spotRowsMissing + 1)
  }

  /** The totals over the first holdings of the catalog, row by row. */
  function TotalsOf(catalog: seq<Holding>, owned: map<string, Owned>, drafts: map<string, Draft>, cache: SpotCache): Totals
    requires Covers(catalog, owned)
  {
    if catalog == [] then ZeroTotals
    else
      var h := catalog[|catalog| - 1];
      AddRow(TotalsOf(catalog[..|catalog| - 1], owned, drafts, cache),
             RowFor(h, owned[h.holdingId], DraftFor(drafts, h.holdingId), cache))
  }

  /** The accumulation loop of `RenderHoldingsTable`. Every catalog holding
      must have an owned entry, as the page reads its fields unguarded. */
  method HoldingsTotals(catalog: seq<Holding>, owned: map<string, Owned>, drafts: map<string, Draft>, cache: SpotCache)
    returns (totals: Totals)
    requires Covers(catalog, owned)
    ensures totals == TotalsOf(catalog, owned, drafts, cache)
  {
    totals := ZeroTotals;
    for i := 0 to |catalog|
      invariant Covers(catalog[..i], owned)
      invariant totals == TotalsOf(catalog[..i], owned, drafts, cache)
    {
      assert catalog[..i + 1][..i] == catalog[..i];
      var h := catalog[i];
      var row := RowFor(h, owned[h.holdingId], DraftFor(drafts, h.holdingId), cache);
      totals := AddRow(totals, row);
    }
    assert catalog[..|catalog|] == catalog;
  }

  /** Every row is counted once, as included in the spot totals or as
      missing, and the gains are the values less what was paid: over all
      rows at market prices, over the included rows at spot. */
  lemma {:induction false} TotalsBalance(catalog: seq<Holding>, owned: map<string, Owned>, drafts: map<string, Draft>, cache: SpotCache)
    requires Covers(catalog, owned)
    ensures var t := TotalsOf(catalog, owned, drafts, cache);
      && t.spotRowsIncluded + t.spotRowsMissing == |catalog|
      && t.ownedGainLoss == t.ownedValue - t.totalPaidOwned
      && t.ownedGainLossSpot == t.ownedValueSpot - t.spotIncludedPaid
  {
    if catalog != [] {
      TotalsBalance(catalog[..|catalog| - 1], owned, drafts, cache);
    }
  }

  /** A row is included in the spot totals exactly when its metal has a
      positive cached spot price and the holding a positive weight. */
  lemma RowIncluded(h: Holding, o: Owned, d: Draft, cache: SpotCache)
    ensures var t := AddRow(ZeroTotals, RowFor(h, o, d, cache));
      var spot := SpotPricePerOunce(h, cache);
      t.spotRowsIncluded == 1 <==> spot.Some? && spot.value > 0.0 && OuncesPerUnit(h) > 0.0
  {
  }

  /** When every metal has a positive spot price and every holding a
      positive weight, no row is missing from the spot totals. */
  lemma {:induction false} NoRowMissing(catalog: seq<Holding>, owned: map<string, Owned>, drafts: map<string, Draft>, cache: SpotCache)
    requires Covers(catalog, owned)
    requires cache.xau.Some? && cache.xau.value > 0.0 && cache.xag.Some? && cache.xag.value > 0.0
    requires forall i :: 0 <= i < |catalog| ==>
      ParseMetalParam(Some(catalog[i].metalCode)).Some? && OuncesPerUnit(catalog[i]) > 0.0
    ensures TotalsOf(catalog, owned, drafts, cache).spotRowsMissing == 0
    ensures TotalsOf(catalog, owned, drafts, cache).spotRowsIncluded == |catalog|
  {
    if catalog != [] {
      NoRowMissing(catalog[..|catalog| - 1], owned, drafts, cache);
    }
  }
}
