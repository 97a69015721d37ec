/** `/api/payments`: the payments a caller may see, newest first, and recording a payment. */
module PaymentsRoute {
  import opened Wrappers
  import opened JsString
  import opened Http
  import opened Types
  import opened Query
  import opened Auth
  import opened Db

  // ---- GET ---------------------------------------------------------------------------------

  /** Only patients are scoped, to their own payments; every other role sees every payment. */
  predicate Visible(caller: UserPayload, p: Payment) {
    caller.role == RoleName(Patient) ==> p.userId == caller.userId
  }

  /** The `query` document of GET. */
  datatype PaymentQuery = PaymentQuery(userId: Option<Id>)

  predicate Matches(q: PaymentQuery, p: Payment) {
    q.userId.Some? ==> p.userId == q.userId.value
  }

  method BuildQuery(caller: UserPayload) returns (q: PaymentQuery)
    ensures forall p :: Matches(q, p) <==> Visible(caller, p)
  {
    q := PaymentQuery(None);
    if caller.role == RoleName(Patient) {
      q := q.(userId := Some(caller.userId));
    }
  }

  method Get(db: Db, session: Option<UserPayload>) returns (r: Reply<seq<Payment>>)
    ensures session.None? ==> r == Err(Unauthorized, "Unauthorized")
    ensures session.Some? ==>
      && r.Ok?
      && SortedDesc(r.value, PaymentCreatedAt)
      && (forall p :: multiset(r.value)[p] == if Visible(session.value, p) then multiset(db.payments)[p] else 0)
  {
    if session.None? {
      return Err(Unauthorized, "Unauthorized");
    }
    var q := BuildQuery(session.value);
    var matches := (p: Payment) => Matches(q, p);
    var found := SortDesc(Filter(db.payments, matches), PaymentCreatedAt);
    forall p: Payment ensures multiset(found)[p] == if Visible(session.value, p) then multiset(db.payments)[p] else 0 {
      FilterMultiplicity(db.payments, matches, p);
    }
    r := Ok(found);
  }

  // ---- POST --------------------------------------------------------------------------------

  /** `` `TXN${Date.now()}${suffix.toUpperCase()}` ``: "TXN" and then only decimal digits and
      upper-case letters. */
  function TransactionId(nowMs: nat, suffix: string): (t: string)
    requires RandomSuffix(suffix)
    ensures |t| >= 4 && StartsWith(t, "TXN")
    ensures forall i :: 3 <= i < |t| ==> IsDigit(t[i]) || IsAsciiUpper(t[i])
  {
    var digits := Decimal(nowMs);
    var t := "TXN" + digits + ToUpper(suffix);
    assert forall i :: 3 <= i < |t| ==> (i < 3 + |digits| ==> t[i] == digits[i - 3]) && (i >= 3 + |digits| ==> t[i] == Upper(suffix[i - 3 - |digits|]));
    t
  }

  /** The fields of a payment request the routes read. `amount` is the body's number (a
      string amount and its `parseFloat` are not modelled). */
  datatype PaymentRequest = PaymentRequest(appointmentId: Option<Id>, amount: Option<int>, paymentMethod: Option<string>)

  predicate Complete(body: PaymentRequest) {
    TruthyNumber(body.amount) && Truthy(body.paymentMethod)
  }

  datatype Receipt = Receipt(paymentId: Id, transactionId: string)

  /** The payment both routes insert: the caller's, completed, with the appointment only when
      one is given. */
  function NewPayment(id: Id, caller: UserPayload, body: PaymentRequest, nowMs: nat, suffix: string): (p: Payment)
    requires Complete(body) && RandomSuffix(suffix)
    ensures p.id == id && p.userId == caller.userId && p.amount == body.amount.value
    ensures p.paymentMethod == body.paymentMethod.value && p.status == PaymentStatusName(PayCompleted)
    ensures p.appointmentId == (if Truthy(body.appointmentId) then body.appointmentId else None)
    ensures p.transactionId == Some(TransactionId(nowMs, suffix))
    ensures p.createdAt == nowMs && p.updatedAt == nowMs
  {
    Payment(id, caller.userId, if Truthy(body.appointmentId) then body.appointmentId else None,
      body.amount.value, body.paymentMethod.value, "completed", Some(TransactionId(nowMs, suffix)), nowMs, nowMs)
  }

  /** `POST /api/payments`. The clock, the random suffix and the inserted id are inputs. */
  method Post(store: Store, session: Option<UserPayload>, body: PaymentRequest, nowMs: nat, suffix: string, newId: Id)
    returns (r: Reply<Receipt>)
    requires RandomSuffix(suffix)
    modifies store
    ensures session.None? ==> r == Err(Unauthorized, "Unauthorized")
    ensures session.Some? && !Complete(body) ==> r == Err(BadRequest, "Missing required fields")
    ensures session.Some? && Complete(body) ==> r.Ok?
    ensures r.Err? ==> store.Snapshot() == old(store.Snapshot())
    ensures r.Ok? ==>
      && session.Some? && Complete(body)
      && r.value == Receipt(newId, TransactionId(nowMs, suffix))
      && store.Snapshot() == old(store.Snapshot()).(payments := old(store.payments) + [NewPayment(newId, session.value, body, nowMs, suffix)])
  {
    if session.None? {
      return Err(Unauthorized, "Unauthorized");
    }
    if !Complete(body) {
      return Err(BadRequest, "Missing required fields");
    }
    var p := NewPayment(newId, session.value, body, nowMs, suffix);
    store.payments := store.payments + [p];
    r := Ok(Receipt(newId, p.transactionId.value));
  }

  /** An amount of 0 is refused like a missing one. */
  lemma ZeroAmountRefused(body: PaymentRequest)
    requires body.amount == Some(0)
    ensures !Complete(body)
  {
  }
}
