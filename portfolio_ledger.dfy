/** The portfolio page's ledger: per holding, the committed units, the
    total paid and the last known market price; per holding, the draft the
    user is typing; and the purchase history. Applying a purchase commits
    the draft, deleting a history record subtracts its effect again, and
    undo deletes the newest record of one holding. The browser's stored
    JSON is the state of a `PortfolioStore`; the clock and the random part
    of a purchase id are parameters. */
module PortfolioLedger {
  import opened Basics

  /** The committed state of one holding. */
  datatype Owned = Owned(unitsOwned: real, totalPaidOwned: real, lastKnownMarketPricePerUnit: real)

  /** What the user has typed for one holding; `None` is a value that
      `Number(...)` does not turn into a finite number. */
  datatype Draft = Draft(unitsBeingPurchasedNow: Option<real>, marketPricePerUnitInput: Option<real>)

  /** `CreateDefaultDraftEdits_Object`. */
  const DefaultDraft := Draft(Some(0.0), Some(0.0))

  datatype PurchaseRecord = PurchaseRecord(
    purchaseId: string,
    holdingId: string,
    purchasedAtUtcIso: string,
    unitsPurchased: real,
    pricePerUnit: real,
    totalCost: real)

  /** Everything the ledger operations read and write. `owned` is `None`
      while no owned state has been stored. */
  datatype Ledger = Ledger(owned: Option<map<string, Owned>>, drafts: map<string, Draft>, history: seq<PurchaseRecord>)

  function DraftFor(drafts: map<string, Draft>, holdingId: string): (d: Draft)
    ensures holdingId !in drafts ==> d == DefaultDraft
  {
    if holdingId in drafts then drafts[holdingId] else DefaultDraft
  }

  /** Units of a purchase: the floor of a finite positive draft value,
      otherwise 0. */
  function PurchaseUnits(n: Option<real>): (u: nat)
    ensures n.Some? && n.value > 0.0 ==> u as real <= n.value < u as real + 1.0
    ensures n.None? || n.value <= 0.0 ==> u == 0
  {
    if n.Some? && n.value > 0.0 then n.value.Floor else 0
  }

  /** A finite positive price, otherwise 0. */
  function PositivePrice(n: Option<real>): (p: real)
    ensures p >= 0.0
    ensures p > 0.0 <==> n.Some? && n.value > 0.0
    ensures p > 0.0 ==> p == n.value
  {
    if n.Some? && n.value > 0.0 then n.value else 0.0
  }

  /** `CreatePurchaseRecord_Object`: the id and the timestamp come from the
      caller, the cost is units times price. */
  function CreatePurchaseRecord(purchaseId: string, holdingId: string, purchasedAt: string, units: real, price: real): (r: PurchaseRecord)
    ensures r.holdingId == holdingId && r.purchaseId == purchaseId && r.purchasedAtUtcIso == purchasedAt
    ensures r.unitsPurchased == units && r.pricePerUnit == price
    ensures r.totalCost == units * price
  {
    PurchaseRecord(purchaseId, holdingId, purchasedAt, units, price, units * price)
  }

  /** `x < 0 ? 0 : x`. */
  function ClampAtZero(x: real): (r: real)
    ensures r >= 0.0
    ensures r >= x
    ensures x >= 0.0 ==> r == x
  {
    if x < 0.0 then 0.0 else x
  }

  // ---------------------------------------------------------------------
  // The operations on values
  // ---------------------------------------------------------------------

  /** The ledger after `ApplyPurchase_ForHoldingId`. */
  function AfterApplyPurchase(L: Ledger, holdingId: string, purchaseId: string, purchasedAt: string): Ledger {
    if L.owned.None? then L
    else
      var draft := DraftFor(L.drafts, holdingId);
      var units := PurchaseUnits(draft.unitsBeingPurchasedNow);
      var price := PositivePrice(draft.marketPricePerUnitInput);
      if units <= 0 || price <= 0.0 || holdingId !in L.owned.value then L
      else
        var o := L.owned.value[holdingId];
        var u := units as real;
        Ledger(
          Some(L.owned.value[holdingId := Owned(o.unitsOwned + u, o.totalPaidOwned + u * price, price)]),
          L.drafts[holdingId := draft.(unitsBeingPurchasedNow := Some(0.0))],
          L.history + [CreatePurchaseRecord(purchaseId, holdingId, purchasedAt, u, price)])
  }

  /** The ledger after `UpdateMarketPrice_ForHoldingId_IfValid`. */
  function AfterUpdateMarketPrice(L: Ledger, holdingId: string): Ledger {
    if L.owned.None? then L
    else
      var price := PositivePrice(DraftFor(L.drafts, holdingId).marketPricePerUnitInput);
      if price <= 0.0 || holdingId !in L.owned.value then L
      else
        var o := L.owned.value[holdingId];
        L.(owned := Some(L.owned.value[holdingId := o.(lastKnownMarketPricePerUnit := price)]))
  }

  function OtherPurchase(purchaseId: string): PurchaseRecord -> bool {
    (r: PurchaseRecord) => r.purchaseId != purchaseId
  }

  /** The history with every record of that purchase id removed. */
  function WithoutPurchase(history: seq<PurchaseRecord>, purchaseId: string): seq<PurchaseRecord> {
    Filter(history, OtherPurchase(purchaseId))
  }

  /** The last record with that purchase id, which is the one the deletion
      loop is left holding. */
  function LastWithPurchaseId(history: seq<PurchaseRecord>, purchaseId: string): (r: Option<PurchaseRecord>)
    ensures r.None? <==> forall x :: x in history ==> x.purchaseId != purchaseId
    ensures r.Some? ==> r.value in history && r.value.purchaseId == purchaseId
  {
    if history == [] then None
    else
      var last := history[|history| - 1];
      var prefix := history[..|history| - 1];
      assert history == prefix + [last];
      if last.purchaseId == purchaseId then Some(last) else LastWithPurchaseId(prefix, purchaseId)
  }

  /** Subtracts a deleted purchase from its holding, clamping both totals
      at zero; the last price is kept. */
  function Reversed(o: Owned, r: PurchaseRecord): Owned {
    o.(unitsOwned := ClampAtZero(o.unitsOwned - r.unitsPurchased),
       totalPaidOwned := ClampAtZero(o.totalPaidOwned - r.totalCost))
  }

  /** The ledger after `DeletePurchaseRecord_AndReverseOwnedImpact`. The
      history is rewritten even when the record's holding has no owned
      entry. */
  function AfterDelete(L: Ledger, purchaseId: string): Ledger {
    if L.owned.None? then L
    else
      var found := LastWithPurchaseId(L.history, purchaseId);
      if found.None? then L
      else
        var r := found.value;
        var owned := L.owned.value;
        var nextOwned := if r.holdingId in owned then owned[r.holdingId := Reversed(owned[r.holdingId], r)] else owned;
        Ledger(Some(nextOwned), L.drafts, WithoutPurchase(L.history, purchaseId))
  }

  /** The record the undo loop settles on: among the records of the
      holding, one with the greatest timestamp string, a later one
      replacing the current choice only when strictly greater. */
  function Newest(history: seq<PurchaseRecord>, holdingId: string): Option<PurchaseRecord> {
    if history == [] then None
    else
      var x := history[|history| - 1];
      var best := Newest(history[..|history| - 1], holdingId);
      if x.holdingId != holdingId then best
      else if best.None? then Some(x)
      else if StrLess(best.value.purchasedAtUtcIso, x.purchasedAtUtcIso) then Some(x)
      else best
  }

  /** The ledger after `UndoLastPurchase_ForHoldingId`. */
  function AfterUndo(L: Ledger, holdingId: string): Ledger {
    var newest := Newest(L.history, holdingId);
    if newest.None? then L else AfterDelete(L, newest.value.purchaseId)
  }

  // ---------------------------------------------------------------------
  // The stored state and its operations
  // ---------------------------------------------------------------------

  class PortfolioStore {
    var owned: Option<map<string, Owned>>
    var drafts: map<string, Draft>
    var history: seq<PurchaseRecord>

    function State(): Ledger
      reads this
    {
      Ledger(owned, drafts, history)
    }

    constructor(initial: Ledger)
      ensures State() == initial
    {
      owned := initial.owned;
      drafts := initial.drafts;
      history := initial.history;
    }

    /** Commits the holding's draft purchase. */
    method ApplyPurchase(holdingId: string, purchaseId: string, purchasedAt: string)
      modifies this
      ensures State() == AfterApplyPurchase(old(State()), holdingId, purchaseId, purchasedAt)
    {
      if owned.None? {
        return;
      }
      var draft := DraftFor(drafts, holdingId);
      var units := PurchaseUnits(draft.unitsBeingPurchasedNow);
      var price := PositivePrice(draft.marketPricePerUnitInput);
      if units <= 0 {
        return;
      }
      if price <= 0.0 {
        return;
      }
      if holdingId !in owned.value {
        return;
      }
      var o := owned.value[holdingId];
      var cost := units as real * price;
      owned := Some(owned.value[holdingId := Owned(o.unitsOwned + units as real, o.totalPaidOwned + cost, price)]);
      history := history + [CreatePurchaseRecord(purchaseId, holdingId, purchasedAt, units as real, price)];
      drafts := drafts[holdingId := draft.(unitsBeingPurchasedNow := Some(0.0))];
    }

    /** Takes the draft price as the holding's last known price when it is
      positive. */
    method UpdateMarketPrice(holdingId: string)
      modifies this
      ensures State() == AfterUpdateMarketPrice(old(State()), holdingId)
    {
      if owned.None? {
        return;
      }
      var price := PositivePrice(DraftFor(drafts, holdingId).marketPricePerUnitInput);
      if price <= 0.0 {
        return;
      }
      if holdingId !in owned.value {
        return;
      }
      var o := owned.value[holdingId];
      owned := Some(owned.value[holdingId := o.(lastKnownMarketPricePerUnit := price)]);
    }

    /** Removes every record with the purchase id and subtracts the last
        of them from its holding. */
    method DeleteRecord(purchaseId: string)
      modifies this
      ensures State() == AfterDelete(old(State()), purchaseId)
    {
      if owned.None? {
        return;
      }
      var recordToDelete, nextHistory := ScanForPurchase(history, purchaseId);
      if recordToDelete.None? {
        return;
      }
      var r := recordToDelete.value;
      if r.holdingId in owned.value {
        var o := owned.value[r.holdingId];
        owned := Some(owned.value[r.holdingId := Reversed(o, r)]);
      }
      history := nextHistory;
    }

    /** Deletes the newest record of the holding, if it has one. */
    method UndoLast(holdingId: string)
      modifies this
      ensures State() == AfterUndo(old(State()), holdingId)
    {
      var newest := FindNewest(history, holdingId);
      if newest.None? {
        return;
      }
      DeleteRecord(newest.value.purchaseId);
    }
  }

  /** The deletion loop: remembers the last record with the purchase id and
      copies every other record. */
  method ScanForPurchase(h: seq<PurchaseRecord>, purchaseId: string)
    returns (recordToDelete: Option<PurchaseRecord>, nextHistory: seq<PurchaseRecord>)
    ensures recordToDelete == LastWithPurchaseId(h, purchaseId)
    ensures nextHistory == WithoutPurchase(h, purchaseId)
  {
    recordToDelete := None;
    nextHistory := [];
    for i := 0 to |h|
      invariant recordToDelete == LastWithPurchaseId(h[..i], purchaseId)
      invariant nextHistory == WithoutPurchase(h[..i], purchaseId)
    {
      ScanStep(h, i, purchaseId);
      if h[i].purchaseId == purchaseId {
        recordToDelete := Some(h[i]);
        continue;
      }
      nextHistory := nextHistory + [h[i]];
    }
    assert h[..|h|] == h;
  }

  lemma ScanStep(h: seq<PurchaseRecord>, i: nat, purchaseId: string)
    requires i < |h|
    ensures LastWithPurchaseId(h[..i + 1], purchaseId)
      == if h[i].purchaseId == purchaseId then Some(h[i]) else LastWithPurchaseId(h[..i], purchaseId)
    ensures WithoutPurchase(h[..i + 1], purchaseId)
      == WithoutPurchase(h[..i], purchaseId) + (if h[i].purchaseId == purchaseId then [] else [h[i]])
  {
    assert h[..i + 1] == h[..i] + [h[i]];
    assert h[..i + 1][..i] == h[..i];
    FilterAppend(h[..i], [h[i]], OtherPurchase(purchaseId));
  }

  /** The undo loop: the newest record of the holding, a later record
      replacing the choice only when its timestamp is strictly greater. */
  method FindNewest(h: seq<PurchaseRecord>, holdingId: string) returns (newest: Option<PurchaseRecord>)
    ensures newest == Newest(h, holdingId)
  {
    newest := None;
    for i := 0 to |h|
      invariant newest == Newest(h[..i], holdingId)
    {
      assert h[..i + 1][..i] == h[..i];
      var r := h[i];
      if r.holdingId != holdingId {
        continue;
      }
      if newest.None? {
        newest := Some(r);
        continue;
      }
      if StrLess(newest.value.purchasedAtUtcIso, r.purchasedAtUtcIso) {
        newest := Some(r);
      }
    }
    assert h[..|h|] == h;
  }

  // ---------------------------------------------------------------------
  // Properties
  // ---------------------------------------------------------------------

  /** Committed units, totals and last known prices are never negative. */
  predicate NonNegative(L: Ledger) {
    L.owned.Some? ==>
      forall k :: k in L.owned.value ==>
        && L.owned.value[k].unitsOwned >= 0.0
        && L.owned.value[k].totalPaidOwned >= 0.0
        && L.owned.value[k].lastKnownMarketPricePerUnit >= 0.0
  }

  /** Two ledgers agree on every holding other than `holdingId`. */
  predicate SameOtherHoldings(L: Ledger, M: Ledger, holdingId: string) {
    && L.owned.Some? == M.owned.Some?
    && (L.owned.Some? ==>
         && L.owned.value.Keys == M.owned.value.Keys
         && forall k :: k in L.owned.value && k != holdingId ==> M.owned.value[k] == L.owned.value[k])
    && (forall k :: k in L.drafts && k != holdingId ==> k in M.drafts && M.drafts[k] == L.drafts[k])
  }

  /** A purchase is applied only with whole positive units, a positive
      price and an owned entry; it then adds the units and their cost,
      records the price, appends one record and clears the draft units. */
  lemma ApplyPurchaseEffect(L: Ledger, holdingId: string, purchaseId: string, purchasedAt: string)
    ensures var M := AfterApplyPurchase(L, holdingId, purchaseId, purchasedAt);
      var draft := DraftFor(L.drafts, holdingId);
      var u := PurchaseUnits(draft.unitsBeingPurchasedNow);
      var p := PositivePrice(draft.marketPricePerUnitInput);
      && SameOtherHoldings(L, M, holdingId)
      && (L.owned.None? || u == 0 || p == 0.0 || holdingId !in L.owned.value ==> M == L)
      && (L.owned.Some? && u > 0 && p > 0.0 && holdingId in L.owned.value ==>
           var o := L.owned.value[holdingId];
           && M.owned.value[holdingId].unitsOwned == o.unitsOwned + u as real
           && M.owned.value[holdingId].totalPaidOwned == o.totalPaidOwned + u as real * p
           && M.owned.value[holdingId].lastKnownMarketPricePerUnit == p
           && |M.history| == |L.history| + 1
           && M.history[..|L.history|] == L.history
           && M.history[|L.history|].holdingId == holdingId
           && M.history[|L.history|].totalCost == u as real * p
           && M.drafts[holdingId].unitsBeingPurchasedNow == Some(0.0)
           && M.drafts[holdingId].marketPricePerUnitInput == draft.marketPricePerUnitInput)
  {
  }

  /** Updating the market price touches the last known price of that one
      holding, and only with a positive draft price. */
  lemma UpdateMarketPriceEffect(L: Ledger, holdingId: string)
    ensures var M := AfterUpdateMarketPrice(L, holdingId);
      var p := PositivePrice(DraftFor(L.drafts, holdingId).marketPricePerUnitInput);
      && SameOtherHoldings(L, M, holdingId)
      && M.history == L.history && M.drafts == L.drafts
      && (M.owned.Some? && holdingId in M.owned.value ==>
           var o := L.owned.value[holdingId];
           var n := M.owned.value[holdingId];
           && n.unitsOwned == o.unitsOwned
           && n.totalPaidOwned == o.totalPaidOwned
           && n.lastKnownMarketPricePerUnit == (if p > 0.0 then p else o.lastKnownMarketPricePerUnit))
  {
  }

  lemma WithoutPurchaseMembers(history: seq<PurchaseRecord>, purchaseId: string)
    ensures forall x :: x in WithoutPurchase(history, purchaseId) <==> x in history && x.purchaseId != purchaseId
  {
  }

  /** Deleting does nothing without owned state or without a record of the
      id. Otherwise every record with that id leaves the history, all other
      records stay in order, and the drafts are untouched. */
  lemma DeleteRewritesHistory(L: Ledger, purchaseId: string)
    ensures var M := AfterDelete(L, purchaseId);
      var found := LastWithPurchaseId(L.history, purchaseId);
      && (L.owned.None? || found.None? ==> M == L)
      && (L.owned.Some? && found.Some? ==>
           && M.drafts == L.drafts
           && M.history == Filter(L.history, OtherPurchase(purchaseId))
           && (forall x :: x in M.history <==> x in L.history && x.purchaseId != purchaseId)
           && |M.history| < |L.history|)
  {
    var found := LastWithPurchaseId(L.history, purchaseId);
    if L.owned.Some? && found.Some? {
      var isIt := (x: PurchaseRecord) => x.purchaseId == purchaseId;
      FilterComplement(L.history, OtherPurchase(purchaseId), isIt);
      assert found.value in Filter(L.history, isIt);
    }
  }

  /** When a record is deleted, the holding of the last record with the id
      loses that record's units and cost, each clamped at zero, and keeps
      its last price; every other holding is untouched. */
  lemma DeleteReversesHolding(L: Ledger, purchaseId: string)
    requires L.owned.Some? && LastWithPurchaseId(L.history, purchaseId).Some?
    ensures var M := AfterDelete(L, purchaseId);
      var r := LastWithPurchaseId(L.history, purchaseId).value;
      && SameOtherHoldings(L, M, r.holdingId)
      && (r.holdingId in L.owned.value ==>
           var o := L.owned.value[r.holdingId];
           var n := M.owned.value[r.holdingId];
           && n.unitsOwned == ClampAtZero(o.unitsOwned - r.unitsPurchased)
           && n.totalPaidOwned == ClampAtZero(o.totalPaidOwned - r.totalCost)
           && n.lastKnownMarketPricePerUnit == o.lastKnownMarketPricePerUnit)
  {
  }

  /** Every operation keeps committed units, totals and last known prices
      non-negative. */
  lemma OperationsKeepNonNegative(L: Ledger, holdingId: string, purchaseId: string, purchasedAt: string)
    requires NonNegative(L)
    ensures NonNegative(AfterApplyPurchase(L, holdingId, purchaseId, purchasedAt))
    ensures NonNegative(AfterUpdateMarketPrice(L, holdingId))
    ensures NonNegative(AfterDelete(L, purchaseId))
    ensures NonNegative(AfterUndo(L, holdingId))
  {
    ApplyKeepsNonNegative(L, holdingId, purchaseId, purchasedAt);
    DeleteKeepsNonNegative(L, purchaseId);
    var newest := Newest(L.history, holdingId);
    if newest.Some? {
      DeleteKeepsNonNegative(L, newest.value.purchaseId);
    }
  }

  lemma ApplyKeepsNonNegative(L: Ledger, holdingId: string, purchaseId: string, purchasedAt: string)
    requires NonNegative(L)
    ensures NonNegative(AfterApplyPurchase(L, holdingId, purchaseId, purchasedAt))
  {
    var draft := DraftFor(L.drafts, holdingId);
    var u := PurchaseUnits(draft.unitsBeingPurchasedNow);
    var p := PositivePrice(draft.marketPricePerUnitInput);
    assert u as real * p >= 0.0;
  }

  lemma DeleteKeepsNonNegative(L: Ledger, purchaseId: string)
    requires NonNegative(L)
    ensures NonNegative(AfterDelete(L, purchaseId))
  {
  }

  /** `Newest` finds a record exactly when the holding has one, and what it
      finds is a record of the holding with no later timestamp in it. */
  lemma {:induction false} NewestIsLatest(history: seq<PurchaseRecord>, holdingId: string)
    ensures Newest(history, holdingId).None? <==> forall x :: x in history ==> x.holdingId != holdingId
    ensures Newest(history, holdingId).Some? ==>
      var n := Newest(history, holdingId).value;
      && n in history && n.holdingId == holdingId
      && forall x :: x in history && x.holdingId == holdingId ==> !StrLess(n.purchasedAtUtcIso, x.purchasedAtUtcIso)
  {
    if history != [] {
      var prefix := history[..|history| - 1];
      var x := history[|history| - 1];
      assert history == prefix + [x];
      NewestIsLatest(prefix, holdingId);
      var best := Newest(prefix, holdingId);
      StrLessIrreflexive(x.purchasedAtUtcIso);
      if x.holdingId == holdingId && best.Some? && StrLess(best.value.purchasedAtUtcIso, x.purchasedAtUtcIso) {
        forall y | y in prefix && y.holdingId == holdingId
          ensures !StrLess(x.purchasedAtUtcIso, y.purchasedAtUtcIso)
        {
          if StrLess(x.purchasedAtUtcIso, y.purchasedAtUtcIso) {
            StrLessTransitive(best.value.purchasedAtUtcIso, x.purchasedAtUtcIso, y.purchasedAtUtcIso);
          }
        }
      }
    }
  }

  /** On ties the earliest record wins: a record of the holding whose
      timestamp is strictly greater than every earlier one of the holding
      and not exceeded by any later one is the one `Newest` picks. */
  lemma {:induction false} NewestKeepsEarliestTie(history: seq<PurchaseRecord>, holdingId: string, k: nat)
    requires k < |history| && history[k].holdingId == holdingId
    requires forall j :: 0 <= j < k && history[j].holdingId == holdingId ==>
      StrLess(history[j].purchasedAtUtcIso, history[k].purchasedAtUtcIso)
    requires forall j :: k < j < |history| && history[j].holdingId == holdingId ==>
      !StrLess(history[k].purchasedAtUtcIso, history[j].purchasedAtUtcIso)
    ensures Newest(history, holdingId) == Some(history[k])
  {
    var prefix := history[..|history| - 1];
    if k == |history| - 1 {
      NewestIsLatest(prefix, holdingId);
    } else {
      NewestKeepsEarliestTie(prefix, holdingId, k);
    }
  }

  /** A record with a new purchase id appended to the history is what a
      deletion of that id finds, and removing it gives the history back. */
  lemma {:induction false} DeleteFreshRecord(history: seq<PurchaseRecord>, rec: PurchaseRecord)
    requires forall x :: x in history ==> x.purchaseId != rec.purchaseId
    ensures LastWithPurchaseId(history + [rec], rec.purchaseId) == Some(rec)
    ensures WithoutPurchase(history + [rec], rec.purchaseId) == history
  {
    var h := history + [rec];
    assert h[..|h| - 1] == history;
    FilterAppend(history, [rec], OtherPurchase(rec.purchaseId));
    forall i | 0 <= i < |history| ensures OtherPurchase(rec.purchaseId)(history[i]) {
      assert history[i] in history;
    }
    FilterKeepsAll(history, OtherPurchase(rec.purchaseId));
  }

  /** A record appended with a timestamp later than every record of its
      holding is the newest of that holding. */
  lemma NewestAfterAppend(history: seq<PurchaseRecord>, rec: PurchaseRecord)
    requires forall x :: x in history && x.holdingId == rec.holdingId ==> StrLess(x.purchasedAtUtcIso, rec.purchasedAtUtcIso)
    ensures Newest(history + [rec], rec.holdingId) == Some(rec)
  {
    var h := history + [rec];
    assert h[..|h| - 1] == history;
    NewestIsLatest(history, rec.holdingId);
  }

  /** The purchase just applied is undone by the next undo when its id is
      new and its timestamp is later than every earlier record of the
      holding: units, total paid and history return to what they were,
      and every other holding is as it was. */
  lemma ApplyThenUndoRestores(L: Ledger, holdingId: string, purchaseId: string, purchasedAt: string)
    requires L.owned.Some? && holdingId in L.owned.value
    requires L.owned.value[holdingId].unitsOwned >= 0.0 && L.owned.value[holdingId].totalPaidOwned >= 0.0
    requires PurchaseUnits(DraftFor(L.drafts, holdingId).unitsBeingPurchasedNow) > 0
    requires PositivePrice(DraftFor(L.drafts, holdingId).marketPricePerUnitInput) > 0.0
    requires forall x :: x in L.history ==> x.purchaseId != purchaseId
    requires forall x :: x in L.history && x.holdingId == holdingId ==> StrLess(x.purchasedAtUtcIso, purchasedAt)
    ensures var M := AfterUndo(AfterApplyPurchase(L, holdingId, purchaseId, purchasedAt), holdingId);
      && M.history == L.history
      && M.owned.Some? && M.owned.value.Keys == L.owned.value.Keys
      && M.owned.value[holdingId].unitsOwned == L.owned.value[holdingId].unitsOwned
      && M.owned.value[holdingId].totalPaidOwned == L.owned.value[holdingId].totalPaidOwned
      && forall k :: k in L.owned.value && k != holdingId ==> M.owned.value[k] == L.owned.value[k]
  {
    var A := AfterApplyPurchase(L, holdingId, purchaseId, purchasedAt);
    var draft := DraftFor(L.drafts, holdingId);
    var u := PurchaseUnits(draft.unitsBeingPurchasedNow) as real;
    var p := PositivePrice(draft.marketPricePerUnitInput);
    var o := L.owned.value[holdingId];
    var rec := CreatePurchaseRecord(purchaseId, holdingId, purchasedAt, u, p);
    var ownedA := L.owned.value[holdingId := Owned(o.unitsOwned + u, o.totalPaidOwned + u * p, p)];
    AppliedLedger(L, holdingId, purchaseId, purchasedAt);
    assert A.history == L.history + [rec] && A.owned == Some(ownedA);
    UndoAfterAppend(A, L.history, rec);
    ReverseUndoesPurchase(o, rec);
    var back := Reversed(ownedA[holdingId], rec);
    UpdateKeepsKeys(L.owned.value, holdingId, ownedA[holdingId]);
    UpdateKeepsKeys(ownedA, holdingId, back);
  }

  /** The applied ledger written out, when the purchase goes through. */
  lemma AppliedLedger(L: Ledger, holdingId: string, purchaseId: string, purchasedAt: string)
    requires L.owned.Some? && holdingId in L.owned.value
    requires PurchaseUnits(DraftFor(L.drafts, holdingId).unitsBeingPurchasedNow) > 0
    requires PositivePrice(DraftFor(L.drafts, holdingId).marketPricePerUnitInput) > 0.0
    ensures var draft := DraftFor(L.drafts, holdingId);
      var u := PurchaseUnits(draft.unitsBeingPurchasedNow) as real;
      var p := PositivePrice(draft.marketPricePerUnitInput);
      var o := L.owned.value[holdingId];
      AfterApplyPurchase(L, holdingId, purchaseId, purchasedAt)
      == Ledger(Some(L.owned.value[holdingId := Owned(o.unitsOwned + u, o.totalPaidOwned + u * p, p)]),
                L.drafts[holdingId := draft.(unitsBeingPurchasedNow := Some(0.0))],
                L.history + [CreatePurchaseRecord(purchaseId, holdingId, purchasedAt, u, p)])
  {
  }

  lemma UpdateKeepsKeys<K, V>(m: map<K, V>, k: K, v: V)
    requires k in m
    ensures m[k := v].Keys == m.Keys
  {
  }

  /** Undoing right after a record with a fresh id and the latest
      timestamp of its holding was appended removes exactly that record
      and reverses it on its holding. */
  lemma UndoAfterAppend(X: Ledger, h: seq<PurchaseRecord>, rec: PurchaseRecord)
    requires X.owned.Some? && rec.holdingId in X.owned.value
    requires X.history == h + [rec]
    requires forall x :: x in h ==> x.purchaseId != rec.purchaseId
    requires forall x :: x in h && x.holdingId == rec.holdingId ==> StrLess(x.purchasedAtUtcIso, rec.purchasedAtUtcIso)
    ensures var owned := X.owned.value;
      AfterUndo(X, rec.holdingId)
      == Ledger(Some(owned[rec.holdingId := Reversed(owned[rec.holdingId], rec)]), X.drafts, h)
  {
    NewestAfterAppend(h, rec);
    DeleteFreshRecord(h, rec);
  }

  /** Subtracting a record from the holding it was just added to gives back
      the holding's units and total paid. */
  lemma ReverseUndoesPurchase(o: Owned, rec: PurchaseRecord)
    requires o.unitsOwned >= 0.0 && o.totalPaidOwned >= 0.0
    ensures var added := Owned(o.unitsOwned + rec.unitsPurchased, o.totalPaidOwned + rec.totalCost, rec.pricePerUnit);
      && Reversed(added, rec).unitsOwned == o.unitsOwned
      && Reversed(added, rec).totalPaidOwned == o.totalPaidOwned
  {
  }
}
