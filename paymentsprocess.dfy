/** `POST /api/payments/process`: charge through the payment gateway, record the payment,
    then mark the appointment it pays for. */
module PaymentsProcessRoute {
  import opened Wrappers
  import opened JsString
  import opened Http
  import opened Types
  import opened Query
  import opened Auth
  import opened Db
  import opened PaymentsRoute

  /** `updateOne({_id: appointmentId}, {$set: {paymentStatus: "paid", paymentId, updatedAt}})`. */
  function MarkPaid(appointments: seq<Appointment>, appointmentId: Id, paymentId: Id, nowMs: Timestamp): (r: seq<Appointment>)
    ensures |r| == |appointments|
    ensures forall i :: 0 <= i < |r| ==>
      r[i] == if FindFirst(appointments, (a: Appointment) => a.id == appointmentId) == Some(i)
              then appointments[i].(paymentStatus := Some("paid"), paymentId := Some(paymentId), updatedAt := nowMs)
              else appointments[i]
  {
    UpdateFirst(appointments, (a: Appointment) => a.id == appointmentId,
      (a: Appointment) => a.(paymentStatus := Some("paid"), paymentId := Some(paymentId), updatedAt := nowMs))
  }

  /** The appointment marked is the first with that id, whoever's it is: nothing compares its
      patient with the caller. Every field but the three set keeps its value. */
  lemma MarkPaidIgnoresOwner(appointments: seq<Appointment>, appointmentId: Id, paymentId: Id, nowMs: Timestamp, i: nat)
    requires i < |appointments| && appointments[i].id == appointmentId
    requires forall j :: 0 <= j < i ==> appointments[j].id != appointmentId
    ensures var a := MarkPaid(appointments, appointmentId, paymentId, nowMs)[i];
      && a.paymentStatus == Some("paid") && a.paymentId == Some(paymentId) && a.updatedAt == nowMs
      && a.patientId == appointments[i].patientId && a.doctorId == appointments[i].doctorId
      && a.status == appointments[i].status && a.date == appointments[i].date
  {
    assert FindFirst(appointments, (a: Appointment) => a.id == appointmentId) == Some(i);
  }

  /** An id that names no appointment changes none. */
  lemma MarkPaidUnknownId(appointments: seq<Appointment>, appointmentId: Id, paymentId: Id, nowMs: Timestamp)
    requires forall a :: a in appointments ==> a.id != appointmentId
    ensures MarkPaid(appointments, appointmentId, paymentId, nowMs) == appointments
  {
  }

  /** `POST /api/payments/process`. `approved` is the gateway's answer; the clock, the random
      suffix and the inserted id are inputs. */
  method Process(store: Store, session: Option<UserPayload>, body: PaymentRequest, approved: bool,
                 nowMs: nat, suffix: string, newId: Id)
    returns (r: Reply<Receipt>)
    requires RandomSuffix(suffix)
    modifies store
    ensures session.None? ==> r == Err(Unauthorized, "Unauthorized")
    ensures session.Some? && !Complete(body) ==> r == Err(BadRequest, "Missing required fields")
    ensures session.Some? && Complete(body) && !approved ==> r == Err(BadRequest, "Payment failed")
    ensures session.Some? && Complete(body) && approved ==> r.Ok?
    ensures r.Err? ==> store.Snapshot() == old(store.Snapshot())
    ensures r.Ok? ==>
      && session.Some? && Complete(body) && approved
      && r.value == Receipt(newId, TransactionId(nowMs, suffix))
      && store.payments == old(store.payments) + [NewPayment(newId, session.value, body, nowMs, suffix)]
      && store.appointments == (if Truthy(body.appointmentId)
                                then MarkPaid(old(store.appointments), body.appointmentId.value, newId, nowMs)
                                else old(store.appointments))
      && store.Snapshot() == old(store.Snapshot()).(payments := store.payments, appointments := store.appointments)
  {
    if session.None? {
      return Err(Unauthorized, "Unauthorized");
    }
    if !Complete(body) {
      return Err(BadRequest, "Missing required fields");
    }
    if !approved {
      return Err(BadRequest, "Payment failed");
    }
    var p := NewPayment(newId, session.value, body, nowMs, suffix);
    store.payments := store.payments + [p];
    if Truthy(body.appointmentId) {
      store.appointments := MarkPaid(store.appointments, body.appointmentId.value, newId, nowMs);
    }
    r := Ok(Receipt(newId, p.transactionId.value));
  }
}
