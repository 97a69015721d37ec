/** The pharmacist's dashboard: the stock badges and the client-side search of the catalogue. */
module PharmacistDashboardPage {
  import opened Wrappers
  import opened JsString
  import opened Types
  import opened Query
  import MedicinesRoute

  const LowStockThreshold: int := 10

  /** `getStockStatus`: the CSS class of a stock badge. */
  function StockStatus(stock: int): (s: string)
    ensures s == "outOfStock" <==> stock == 0
    ensures s == "lowStock" <==> stock != 0 && stock < LowStockThreshold
    ensures s == "inStock" <==> stock >= LowStockThreshold
  {
    if stock == 0 then "outOfStock" else if stock < 10 then "lowStock" else "inStock"
  }

  /** `getStockLabel`: the text of a stock badge. */
  function StockLabel(stock: int): (s: string)
    ensures s == "Out of Stock" <==> stock == 0
    ensures s == "Low Stock" <==> stock != 0 && stock < LowStockThreshold
    ensures s == "In Stock" <==> stock >= LowStockThreshold
  {
    if stock == 0 then "Out of Stock" else if stock < 10 then "Low Stock" else "In Stock"
  }

  /** The label always names the status: two stocks get the same label exactly when they get
      the same status. A negative stock is "low". */
  lemma LabelFollowsStatus(a: int, b: int)
    ensures StockLabel(a) == StockLabel(b) <==> StockStatus(a) == StockStatus(b)
    ensures a < 0 ==> StockStatus(a) == "lowStock"
  {
  }

  predicate Shown(searchQuery: string, m: Medicine) {
    IncludesIgnoringCase(m.name, searchQuery) || IncludesIgnoringCase(m.genericName, searchQuery)
  }

  /** `filteredMedicines`. */
  function FilteredMedicines(medicines: seq<Medicine>, searchQuery: string): (r: seq<Medicine>)
    ensures forall m :: m in r <==> m in medicines && Shown(searchQuery, m)
  {
    Filter(medicines, (m: Medicine) => Shown(searchQuery, m))
  }

  /** The list keeps the catalogue's order, an empty query shows everything, and a non-empty
      one shows what the server's `search` parameter would select. */
  lemma FilteredSelects(medicines: seq<Medicine>, searchQuery: string)
    ensures SubsequenceOf(FilteredMedicines(medicines, searchQuery), medicines)
    ensures searchQuery == "" ==> FilteredMedicines(medicines, searchQuery) == medicines
    ensures searchQuery != "" ==>
      FilteredMedicines(medicines, searchQuery) == Filter(medicines, (m: Medicine) => MedicinesRoute.Wanted(Some(searchQuery), None, m))
  {
    var shown := (m: Medicine) => Shown(searchQuery, m);
    FilterIsSubsequence(medicines, shown);
    if searchQuery == "" {
      forall i | 0 <= i < |medicines| ensures shown(medicines[i]) {
        IncludesEmpty(ToLower(medicines[i].name));
      }
      FilterAll(medicines, shown);
    } else {
      FilterExtensional(medicines, shown, (m: Medicine) => MedicinesRoute.Wanted(Some(searchQuery), None, m));
    }
  }
}
