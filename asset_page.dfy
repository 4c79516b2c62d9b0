/** The single-asset page: its purchase ledger, the quantity bookkeeping around
    adding and deleting purchases, market updates and performance figures. The
    remote store is not modelled; the purchase list it returns after a change is
    a parameter. */
module AssetPage {
  import opened Wrappers
  import opened Js
  import opened Assets
  import opened MarketData

  /** A stored purchase; missing fees are `None`. */
  datatype Purchase = Purchase(id: string, quantity: real, pricePerUnit: real, fees: Option<real>)

  /** The purchase dialog's text fields. */
  datatype PurchaseForm = PurchaseForm(date: string, quantity: NumText, pricePerUnit: NumText, fees: NumText, notes: string)

  /** The record sent to the store; NaN fees are `None`. */
  datatype PurchaseData = PurchaseData(assetId: string, date: string, quantity: real, pricePerUnit: real, fees: Option<real>, notes: string)

  /** Why adding a purchase failed: the two validation messages, or the page
      holding no asset (the source then fails reading `asset.id`). */
  datatype PurchaseError = QuantityInvalid | PriceInvalid | NoAsset

  function ErrorMessage(e: PurchaseError): string {
    match e
    case QuantityInvalid => "Quantity must be a valid number"
    case PriceInvalid => "Price must be a valid number"
    case NoAsset => "Failed to add purchase"
  }

  datatype Outcome<T> = Done(value: T) | Rejected(error: PurchaseError)

  /** The form after a successful save: today's date, fees "0", the rest empty. */
  function FreshForm(today: string): PurchaseForm {
    PurchaseForm(today, Blank, Blank, Numeric(0.0), "")
  }

  /** The checks and payload of `addPurchase`, in their order. */
  function PurchasePayload(form: PurchaseForm, asset: Option<Asset>): (r: Outcome<PurchaseData>)
    ensures form.quantity.MissingOrNaN() ==> r == Rejected(QuantityInvalid)
    ensures !form.quantity.MissingOrNaN() && form.pricePerUnit.MissingOrNaN() ==> r == Rejected(PriceInvalid)
    ensures r.Done? <==> !form.quantity.MissingOrNaN() && !form.pricePerUnit.MissingOrNaN() && asset.Some?
    ensures r.Done? ==> r.value.quantity == form.quantity.value && r.value.pricePerUnit == form.pricePerUnit.value
                        && r.value.assetId == asset.value.id
    ensures r.Done? && form.fees.Blank? ==> r.value.fees == Some(0.0)
    ensures r.Done? && form.fees.Numeric? ==> r.value.fees == Some(form.fees.value)
  {
    if form.quantity.MissingOrNaN() then Rejected(QuantityInvalid)
    else if form.pricePerUnit.MissingOrNaN() then Rejected(PriceInvalid)
    else if asset.None? then Rejected(NoAsset)
    else Done(PurchaseData(asset.value.id, form.date, form.quantity.value, form.pricePerUnit.value,
                           form.fees.ToNumber(), form.notes))
  }

  function FindPurchase(purchases: seq<Purchase>, id: string): (r: Option<Purchase>)
    ensures r.None? <==> forall p :: p in purchases ==> p.id != id
    ensures r.Some? ==> r.value in purchases && r.value.id == id
  {
    if purchases == [] then None
    else if purchases[0].id == id then Some(purchases[0])
    else
      assert purchases == [purchases[0]] + purchases[1..];
      FindPurchase(purchases[1..], id)
  }

  /** The purchase found is the first one carrying the id. */
  lemma {:induction false} FindPurchaseFirst(purchases: seq<Purchase>, id: string, i: nat)
    requires i < |purchases| && purchases[i].id == id
    requires forall j :: 0 <= j < i ==> purchases[j].id != id
    ensures FindPurchase(purchases, id) == Some(purchases[i])
  {
    if i > 0 {
      assert purchases[0].id != id;
      assert forall j :: 0 <= j < i - 1 ==> purchases[1..][j].id != id by {
        forall j | 0 <= j < i - 1 ensures purchases[1..][j].id != id {
          assert purchases[1..][j] == purchases[j + 1];
        }
      }
      FindPurchaseFirst(purchases[1..], id, i - 1);
    }
  }

  /** `Math.max(0, quantity - removed)`. */
  function QuantityAfterDelete(quantity: real, removed: real): (q: real)
    ensures q >= 0.0
    ensures q >= quantity - removed
    ensures q == 0.0 || q == quantity - removed
  {
    if quantity - removed > 0.0 then quantity - removed else 0.0
  }

  /** The first quote for `symbol`. */
  function FindQuote(data: seq<Quote>, symbol: string): (r: Option<Quote>)
    ensures r.None? <==> forall d :: d in data ==> d.symbol != symbol
    ensures r.Some? ==> r.value in data && r.value.symbol == symbol
  {
    if data == [] then None
    else if data[0].symbol == symbol then Some(data[0])
    else
      assert data == [data[0]] + data[1..];
      FindQuote(data[1..], symbol)
  }

  /** The quote found is the first one carrying the symbol. */
  lemma {:induction false} FindQuoteFirst(data: seq<Quote>, symbol: string, i: nat)
    requires i < |data| && data[i].symbol == symbol
    requires forall j :: 0 <= j < i ==> data[j].symbol != symbol
    ensures FindQuote(data, symbol) == Some(data[i])
  {
    if i > 0 {
      assert data[0].symbol != symbol;
      assert forall j :: 0 <= j < i - 1 ==> data[1..][j].symbol != symbol by {
        forall j | 0 <= j < i - 1 ensures data[1..][j].symbol != symbol {
          assert data[1..][j] == data[j + 1];
        }
      }
      FindQuoteFirst(data[1..], symbol, i - 1);
    }
  }

  /** The asset after a matching quote: new price and change, and the quote's
      name unless it has none. */
  function WithQuote(a: Asset, q: Quote): (r: Asset)
    ensures r.currentPrice == q.price && r.dailyChangePercent == q.changePercent
    ensures r.name == (if q.name != "" then q.name else a.name)
    ensures r.(currentPrice := a.currentPrice, dailyChangePercent := a.dailyChangePercent, name := a.name) == a
  {
    a.(currentPrice := q.price, dailyChangePercent := q.changePercent, name := if q.name != "" then q.name else a.name)
  }

  // ---------------------------------------------------------------------------
  // Performance

  datatype Performance = Performance(averageCost: real, totalCost: real, totalValue: real, totalROI: real)

  /** `p.quantity * p.price_per_unit + (p.fees || 0)`. */
  function PurchaseCost(p: Purchase): real {
    p.quantity * p.pricePerUnit + NumberOrZero(p.fees)
  }

  function TotalCost(purchases: seq<Purchase>): real {
    if purchases == [] then 0.0
    else TotalCost(purchases[..|purchases| - 1]) + PurchaseCost(purchases[|purchases| - 1])
  }

  /** `calculatePerformance`. */
  function CalculatePerformance(asset: Option<Asset>, purchases: seq<Purchase>): (r: Performance)
    ensures asset.None? || !TruthyNumber(asset.value.currentPrice) || purchases == [] ==> r == Performance(0.0, 0.0, 0.0, 0.0)
    ensures asset.Some? && TruthyNumber(asset.value.currentPrice) && purchases != [] ==>
      && r.totalCost == TotalCost(purchases)
      && r.totalValue == asset.value.quantity * asset.value.currentPrice.value
      && (asset.value.quantity > 0.0 ==> r.averageCost * asset.value.quantity == r.totalCost)
      && (asset.value.quantity <= 0.0 ==> r.averageCost == 0.0)
      && (r.totalCost > 0.0 ==> r.totalROI * r.totalCost == (r.totalValue - r.totalCost) * 100.0)
      && (r.totalCost <= 0.0 ==> r.totalROI == 0.0)
  {
    if asset.None? || !TruthyNumber(asset.value.currentPrice) || |purchases| == 0 then Performance(0.0, 0.0, 0.0, 0.0)
    else
      var quantity := asset.value.quantity;
      var totalCost := TotalCost(purchases);
      var averageCost := if quantity > 0.0 then totalCost / quantity else 0.0;
      var totalValue := quantity * asset.value.currentPrice.value;
      var totalROI := if totalCost > 0.0 then (totalValue - totalCost) / totalCost * 100.0 else 0.0;
      assert totalCost > 0.0 ==> totalROI * totalCost == (totalValue - totalCost) * 100.0 by {
        if totalCost > 0.0 {
          RatioTimes(totalValue - totalCost, totalCost);
        }
      }
      Performance(averageCost, totalCost, totalValue, totalROI)
  }

  lemma {:induction false} RatioTimes(x: real, d: real)
    requires d > 0.0
    ensures x / d * 100.0 * d == x * 100.0
  {
  }

  /** The cost basis of a ledger is the sum over its parts. */
  lemma {:induction false} TotalCostAppend(xs: seq<Purchase>, ys: seq<Purchase>)
    ensures TotalCost(xs + ys) == TotalCost(xs) + TotalCost(ys)
    decreases |ys|
  {
    if ys == [] {
      assert xs + ys == xs;
    } else {
      var init := ys[..|ys| - 1];
      TotalCostAppend(xs, init);
      assert (xs + ys)[..|xs + ys| - 1] == xs + init;
    }
  }

  /** Purchases without fees cost at least nothing when bought at non-negative
      quantities and prices, so the cost basis is never negative then. */
  lemma {:induction false} TotalCostNonNegative(purchases: seq<Purchase>)
    requires forall p :: p in purchases ==> p.quantity >= 0.0 && p.pricePerUnit >= 0.0 && NumberOrZero(p.fees) >= 0.0
    ensures TotalCost(purchases) >= 0.0
  {
    if purchases != [] {
      var init := purchases[..|purchases| - 1];
      assert forall p :: p in init ==> p in purchases;
      TotalCostNonNegative(init);
      assert purchases[|purchases| - 1] in purchases;
    }
  }

  // ---------------------------------------------------------------------------
  // The page state

  class AssetPageState {
    var asset: Option<Asset>
    var purchases: seq<Purchase>
    var form: PurchaseForm
    var showPurchaseModal: bool
    var error: Option<string>

    constructor (today: string)
      ensures asset.None? && purchases == [] && form == FreshForm(today) && !showPurchaseModal && error.None?
    {
      asset := None;
      purchases := [];
      form := FreshForm(today);
      showPurchaseModal := false;
      error := None;
    }

    /** `handleMarketDataUpdate`: only the quote with the asset's symbol changes
        the asset, and only its price, change and name. */
    method HandleMarketDataUpdate(data: seq<Quote>)
      modifies this
      ensures old(asset).None? || data == [] || FindQuote(data, old(asset).value.symbol).None? ==> asset == old(asset)
      ensures old(asset).Some? && data != [] && FindQuote(data, old(asset).value.symbol).Some? ==>
                asset == Some(WithQuote(old(asset).value, FindQuote(data, old(asset).value.symbol).value))
      ensures purchases == old(purchases) && form == old(form)
      ensures showPurchaseModal == old(showPurchaseModal) && error == old(error)
    {
      if |data| == 0 || asset.None? {
        return;
      }
      var found := FindQuote(data, asset.value.symbol);
      if found.Some? {
        var prev := asset.value;
        var q := found.value;
        asset := Some(prev.(currentPrice := q.price, dailyChangePercent := q.changePercent,
                            name := if q.name != "" then q.name else prev.name));
      }
    }

    /** `addPurchase`: validates the form, sends the purchase, raises the held
        quantity by the purchased quantity, takes the ledger the store returns
        (`refreshed`) and resets the form; on a failed check only the error is set. */
    method AddPurchase(today: string, refreshed: seq<Purchase>) returns (sent: Option<PurchaseData>)
      modifies this
      ensures PurchasePayload(old(form), old(asset)).Rejected? ==>
        && sent.None?
        && asset == old(asset) && purchases == old(purchases) && form == old(form)
        && showPurchaseModal == old(showPurchaseModal)
        && error == Some(ErrorMessage(PurchasePayload(old(form), old(asset)).error))
      ensures PurchasePayload(old(form), old(asset)).Done? ==>
        && sent == Some(PurchasePayload(old(form), old(asset)).value)
        && asset == Some(old(asset).value.(quantity := old(asset).value.quantity + sent.value.quantity))
        && purchases == refreshed && form == FreshForm(today)
        && !showPurchaseModal && error.None?
    {
      error := None;
      var payload := PurchasePayload(form, asset);
      match payload
      case Rejected(e) =>
        error := Some(ErrorMessage(e));
        sent := None;
      case Done(data) =>
        sent := Some(data);
        var newQuantity := asset.value.quantity + data.quantity;
        asset := Some(asset.value.(quantity := newQuantity));
        purchases := refreshed;
        form := FreshForm(today);
        showPurchaseModal := false;
    }

    /** `deletePurchase`: after confirmation, lowers the held quantity by the
        purchase's quantity, never below 0, and takes the refreshed ledger. An
        unknown purchase or a missing asset fails and changes nothing. */
    method DeletePurchase(purchaseId: string, confirmed: bool, refreshed: seq<Purchase>)
      modifies this
      ensures !confirmed || old(asset).None? || FindPurchase(old(purchases), purchaseId).None? ==>
        asset == old(asset) && purchases == old(purchases)
      ensures confirmed && old(asset).Some? && FindPurchase(old(purchases), purchaseId).Some? ==>
        && asset == Some(old(asset).value.(quantity := QuantityAfterDelete(old(asset).value.quantity,
                                                                       FindPurchase(old(purchases), purchaseId).value.quantity)))
        && purchases == refreshed
      ensures form == old(form) && showPurchaseModal == old(showPurchaseModal) && error == old(error)
    {
      if !confirmed {
        return;
      }
      var purchase := FindPurchase(purchases, purchaseId);
      if purchase.None? || asset.None? {
        return;
      }
      var newQuantity := QuantityAfterDelete(asset.value.quantity, purchase.value.quantity);
      asset := Some(asset.value.(quantity := newQuantity));
      purchases := refreshed;
    }
  }

  /** Adding a purchase and then deleting the purchase the store recorded for it
      gives back the asset as it was, quantity included, when the held quantity
      was not negative. `stored` is the record the refreshed ledger lists first
      for the id. */
  method AddThenDeleteRestores(page: AssetPageState, today: string, stored: Purchase, rest: seq<Purchase>,
                               after: seq<Purchase>)
    requires page.asset.Some? && page.asset.value.quantity >= 0.0
    requires PurchasePayload(page.form, page.asset).Done?
    requires stored.quantity == PurchasePayload(page.form, page.asset).value.quantity
    modifies page
    ensures page.asset == old(page.asset)
    ensures page.purchases == after
  {
    var sent := page.AddPurchase(today, [stored] + rest);
    assert FindPurchase(page.purchases, stored.id) == Some(stored);
    page.DeletePurchase(stored.id, true, after);
  }
}
