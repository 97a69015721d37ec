/** The patient's payments page: which appointments await payment, and the requests its three
    payment paths send. */
module PatientPaymentsPage {
  import opened Wrappers
  import opened JsString
  import opened Types
  import opened Query
  import opened Db
  import PaymentsRoute
  import PaymentsProcessRoute

  /** `apt.status === "scheduled" && apt.paymentStatus !== "paid"`. */
  predicate Pending(a: Appointment) {
    a.status == AppointmentStatusName(Scheduled) && a.paymentStatus != Some("paid")
  }

  /** `unpaidAppointments`, over the populated appointments the page fetched. */
  function Unpaid(appointments: seq<Populated<Appointment>>): (r: seq<Populated<Appointment>>)
    ensures forall x :: x in r <==> x in appointments && x.doc.status == "scheduled" && x.doc.paymentStatus != Some("paid")
  {
    Filter(appointments, (x: Populated<Appointment>) => Pending(x.doc))
  }

  /** A missing payment status counts as unpaid; any status other than "scheduled" is never
      pending. */
  lemma PendingCases(a: Appointment)
    ensures a.status == "scheduled" && a.paymentStatus.None? ==> Pending(a)
    ensures a.status != "scheduled" ==> !Pending(a)
  {
  }

  /** The amount the page shows, and the amount every handler posts. */
  const DisplayedAmount: string := "Rs.5000.00"
  const PostedAmount: int := 50

  /** What a handler posts to `/api/payments/process`. */
  datatype PaymentPayload = PaymentPayload(
    appointmentId: Id,
    amount: int,
    paymentMethod: string,
    transactionId: Option<string>,
    insuranceProvider: Option<string>,
    insuranceId: Option<string>)

  function CashPayload(a: Appointment): (p: PaymentPayload)
    ensures p.appointmentId == a.id && p.amount == PostedAmount && p.paymentMethod == PaymentMethodName(Cash)
    ensures p.transactionId.None? && p.insuranceProvider.None? && p.insuranceId.None?
  {
    PaymentPayload(a.id, 50, "cash", None, None, None)
  }

  function InsurancePayload(a: Appointment, provider: string, policyId: string): (p: PaymentPayload)
    ensures p.appointmentId == a.id && p.amount == PostedAmount && p.paymentMethod == PaymentMethodName(Insurance)
    ensures p.transactionId.None? && p.insuranceProvider == Some(provider) && p.insuranceId == Some(policyId)
  {
    PaymentPayload(a.id, 50, "insurance", None, Some(provider), Some(policyId))
  }

  function CardPayload(a: Appointment, transactionId: string): (p: PaymentPayload)
    ensures p.appointmentId == a.id && p.amount == PostedAmount && p.paymentMethod == PaymentMethodName(Card)
    ensures p.transactionId == Some(transactionId) && p.insuranceProvider.None? && p.insuranceId.None?
  {
    PaymentPayload(a.id, 50, "card", Some(transactionId), None, None)
  }

  /** The payload as the route reads it. */
  function Request(p: PaymentPayload): PaymentsRoute.PaymentRequest {
    PaymentsRoute.PaymentRequest(Some(p.appointmentId), Some(p.amount), Some(p.paymentMethod))
  }

  /** Each of the three payloads passes the route's required-field check. */
  lemma PayloadsComplete(a: Appointment, provider: string, policyId: string, transactionId: string)
    ensures PaymentsRoute.Complete(Request(CashPayload(a)))
    ensures PaymentsRoute.Complete(Request(InsurancePayload(a, provider, policyId)))
    ensures PaymentsRoute.Complete(Request(CardPayload(a, transactionId)))
  {
  }

  /** The amount shown is not the amount posted: "Rs.5000.00" is displayed, 50 is charged. */
  lemma DisplayedAmountDiffers()
    ensures DisplayedAmount != "Rs." + Decimal(PostedAmount) + ".00"
  {
    assert Decimal(PostedAmount) == "50";
  }

  /** Once the process route marks an appointment paid, the page no longer lists it as
      pending; every other appointment keeps its verdict. */
  lemma PaidLeavesPending(appointments: seq<Appointment>, appointmentId: Id, paymentId: Id, nowMs: Timestamp, i: nat)
    requires i < |appointments|
    ensures var after := PaymentsProcessRoute.MarkPaid(appointments, appointmentId, paymentId, nowMs);
      if FindFirst(appointments, (a: Appointment) => a.id == appointmentId) == Some(i)
      then !Pending(after[i])
      else Pending(after[i]) == Pending(appointments[i])
  {
  }
}
