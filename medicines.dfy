/** `/api/medicines`: the catalogue, searched by name and filtered by category, and adding a
    medicine to it. */
module MedicinesRoute {
  import opened Wrappers
  import opened JsString
  import opened Http
  import opened Types
  import opened Query
  import opened Auth
  import opened Db
  import opened Guards

  // ---- GET ---------------------------------------------------------------------------------

  /** What GET is meant to keep: with a non-empty `search`, medicines whose name or generic
      name contains it whatever the case; with a non-empty `category`, medicines of exactly that
      category; both conditions when both are given. */
  predicate Wanted(search: Option<string>, category: Option<string>, m: Medicine) {
    && (Truthy(search) ==> IncludesIgnoringCase(m.name, search.value) || IncludesIgnoringCase(m.genericName, search.value))
    && (Truthy(category) ==> m.category == category.value)
  }

  /** The `query` document: `$or` of two case-insensitive matches, and `category`. */
  datatype MedicineQuery = MedicineQuery(nameOrGeneric: Option<string>, category: Option<string>)

  predicate Matches(q: MedicineQuery, m: Medicine) {
    && (q.nameOrGeneric.Some? ==>
          IncludesIgnoringCase(m.name, q.nameOrGeneric.value) || IncludesIgnoringCase(m.genericName, q.nameOrGeneric.value))
    && (q.category.Some? ==> m.category == q.category.value)
  }

  method BuildQuery(search: Option<string>, category: Option<string>) returns (q: MedicineQuery)
    ensures forall m :: Matches(q, m) <==> Wanted(search, category, m)
  {
    q := MedicineQuery(None, None);
    if Truthy(search) {
      q := q.(nameOrGeneric := search);
    }
    if Truthy(category) {
      q := q.(category := category);
    }
  }

  /** `GET /api/medicines?search=...&category=...`, in stored order (no sort). */
  method Get(db: Db, session: Option<UserPayload>, search: Option<string>, category: Option<string>)
    returns (r: Reply<seq<Medicine>>)
    ensures session.None? ==> r == Err(Unauthorized, "Unauthorized")
    ensures session.Some? ==> r == Ok(Filter(db.medicines, (m: Medicine) => Wanted(search, category, m)))
  {
    if session.None? {
      return Err(Unauthorized, "Unauthorized");
    }
    var q := BuildQuery(search, category);
    FilterExtensional(db.medicines, (m: Medicine) => Matches(q, m), (m: Medicine) => Wanted(search, category, m));
    r := Ok(Filter(db.medicines, (m: Medicine) => Matches(q, m)));
  }

  /** What GET returns is the catalogue with some medicines left out, in stored order, one
      output per match; with neither parameter, the whole catalogue. */
  lemma GetSelects(medicines: seq<Medicine>, search: Option<string>, category: Option<string>)
    ensures var r := Filter(medicines, (m: Medicine) => Wanted(search, category, m));
      && SubsequenceOf(r, medicines)
      && (forall m :: m in r <==> m in medicines && Wanted(search, category, m))
      && (!Truthy(search) && !Truthy(category) ==> r == medicines)
  {
    var wanted := (m: Medicine) => Wanted(search, category, m);
    FilterIsSubsequence(medicines, wanted);
    if !Truthy(search) && !Truthy(category) {
      FilterAll(medicines, wanted);
    }
  }

  // ---- POST --------------------------------------------------------------------------------

  /** The fields of the POST body. `price` and `stock` are the body's numbers (the
      `parseFloat`/`parseInt` of strings is not modelled); `sideEffects` is None when the
      body's value is not an array. */
  datatype MedicineBody = MedicineBody(
    name: Option<string>,
    genericName: Option<string>,
    manufacturer: Option<string>,
    category: Option<string>,
    price: Option<int>,
    stock: Option<int>,
    description: Option<string>,
    sideEffects: Option<seq<string>>)

  /** The required fields: four non-empty strings, a price other than 0, and a stock that is
      present, 0 included. */
  predicate Complete(b: MedicineBody) {
    Truthy(b.name) && Truthy(b.genericName) && Truthy(b.manufacturer) && Truthy(b.category)
    && TruthyNumber(b.price) && b.stock.Some?
  }

  predicate MayStock(session: Option<UserPayload>) {
    HasRole(session, Pharmacist) || HasRole(session, Admin)
  }

  /** `POST /api/medicines`. The clock and the inserted id are inputs. */
  method Post(store: Store, session: Option<UserPayload>, body: MedicineBody, nowMs: Timestamp, newId: Id)
    returns (r: Reply<Id>)
    modifies store
    ensures !MayStock(session) ==> r == Err(Unauthorized, "Unauthorized")
    ensures MayStock(session) && !Complete(body) ==> r == Err(BadRequest, "Missing required fields")
    ensures MayStock(session) && Complete(body) ==> r.Ok?
    ensures r.Err? ==> store.Snapshot() == old(store.Snapshot())
    ensures r.Ok? ==>
      && MayStock(session) && Complete(body) && r.value == newId
      && |store.medicines| == |old(store.medicines)| + 1
      && store.medicines[..|old(store.medicines)|] == old(store.medicines)
      && store.Snapshot() == old(store.Snapshot()).(medicines := store.medicines)
      && var m := store.medicines[|old(store.medicines)|];
         && m.id == newId && m.name == body.name.value && m.genericName == body.genericName.value
         && m.manufacturer == body.manufacturer.value && m.category == body.category.value
         && m.price == body.price.value && m.stock == body.stock.value
         && m.description == body.description
         && m.sideEffects == (if body.sideEffects.Some? then body.sideEffects.value else [])
         && m.createdAt == nowMs && m.updatedAt == nowMs
  {
    if !MayStock(session) {
      return Err(Unauthorized, "Unauthorized");
    }
    if !Complete(body) {
      return Err(BadRequest, "Missing required fields");
    }
    var sideEffects := if body.sideEffects.Some? then body.sideEffects.value else [];
    var m := Medicine(newId, body.name.value, body.genericName.value, body.manufacturer.value, body.category.value,
      body.price.value, body.stock.value, body.description, sideEffects, nowMs, nowMs);
    store.medicines := store.medicines + [m];
    r := Ok(newId);
  }

  /** A stock of 0 is accepted, a price of 0 is not. */
  lemma ZeroStockZeroPrice(b: MedicineBody)
    requires Truthy(b.name) && Truthy(b.genericName) && Truthy(b.manufacturer) && Truthy(b.category)
    ensures Complete(b.(price := Some(1), stock := Some(0)))
    ensures !Complete(b.(price := Some(0)))
  {
  }
}
