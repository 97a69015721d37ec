/** `/api/health-card`: a patient's health card, created on first request, and the partial
    update of its medical fields. Also the card number and the QR payload the card carries. */
module HealthCardRoute {
  import opened Wrappers
  import opened JsString
  import opened Http
  import opened Types
  import opened Query
  import opened Auth
  import opened Db
  import opened Guards

  // ---- card numbers and the QR payload ---------------------------------------------------

  /** What every issued card number looks like: "HC" and at least one more character, each a
      decimal digit or an upper-case letter. */
  predicate CardNumberShape(cn: string) {
    |cn| >= 3 && cn[0] == 'H' && cn[1] == 'C'
    && forall i :: 2 <= i < |cn| ==> IsDigit(cn[i]) || IsAsciiUpper(cn[i])
  }

  /** `` `HC${Date.now()}${suffix.toUpperCase()}` ``. */
  function CardNumber(nowMs: nat, suffix: string): (cn: string)
    requires RandomSuffix(suffix)
    ensures CardNumberShape(cn)
    ensures StartsWith(cn, "HC")
  {
    var digits := Decimal(nowMs);
    var tail := ToUpper(suffix);
    var cn := "HC" + digits + tail;
    assert forall i :: 2 <= i < |cn| ==> (i < 2 + |digits| ==> cn[i] == digits[i - 2]) && (i >= 2 + |digits| ==> cn[i] == Upper(suffix[i - 2 - |digits|]));
    cn
  }

  /** How `JSON.stringify` writes one character inside a string literal. */
  function JsonEscapeChar(c: char): (r: string)
    ensures |r| >= 1
    ensures IsAlnum(c) ==> r == [c]
    ensures c == '"' ==> r == "\\\""
    ensures c == '\\' ==> r == "\\\\"
    ensures (c as int) < 0x20 ==> |r| >= 2 && r[0] == '\\' && forall i :: 0 <= i < |r| ==> 0x20 <= r[i] as int
    ensures c != '"' && c != '\\' && (c as int) >= 0x20 ==> r == [c]
  {
    if c == '"' then "\\\""
    else if c == '\\' then "\\\\"
    else if c == '\n' then "\\n"
    else if c == '\r' then "\\r"
    else if c == '\t' then "\\t"
    else if c as int == 0x08 then "\\b"
    else if c as int == 0x0C then "\\f"
    else if (c as int) < 0x20 then "\\u00" + [HexDigit(c as int / 16), HexDigit(c as int % 16)]
    else [c]
  }

  function HexDigit(d: int): char
    requires 0 <= d < 16
  {
    if d < 10 then ('0' as int + d) as char else ('a' as int + d - 10) as char
  }

  /** The body of a JSON string literal for `s`. */
  function JsonEscape(s: string): (r: string)
    ensures (forall i :: 0 <= i < |s| ==> IsAlnum(s[i])) ==> r == s
  {
    if s == [] then [] else JsonEscapeChar(s[0]) + JsonEscape(s[1..])
  }

  /** `JSON.stringify({ cardNumber, patientId })`, the data the QR code image encodes. */
  function QrPayload(cardNumber: string, patientId: Id): string {
    "{\"cardNumber\":\"" + JsonEscape(cardNumber) + "\",\"patientId\":\"" + JsonEscape(patientId) + "\"}"
  }

  /** A card number needs no escaping, so the payload holds it verbatim right after its key. */
  lemma PayloadHoldsCardNumber(cn: string, uid: Id)
    requires CardNumberShape(cn)
    ensures QrPayload(cn, uid) == "{\"cardNumber\":\"" + cn + "\",\"patientId\":\"" + JsonEscape(uid) + "\"}"
  {
  }

  // ---- GET: get or create ------------------------------------------------------------------

  predicate OwnedBy(uid: Id, c: HealthCard) { c.patientId == uid }

  /** The card GET creates for `uid` when it has none. */
  function NewCard(id: Id, uid: Id, nowMs: nat, suffix: string): (c: HealthCard)
    requires RandomSuffix(suffix)
    ensures c.patientId == uid && CardNumberShape(c.cardNumber)
    ensures c.qrCode.payload == QrPayload(c.cardNumber, uid)
    ensures c.bloodGroup.None? && c.allergies.None? && c.emergencyContact.None? && c.medicalConditions.None?
  {
    var cn := CardNumber(nowMs, suffix);
    HealthCard(id, uid, cn, QrCode(QrPayload(cn, uid)), None, None, None, None, nowMs, nowMs)
  }

  /** `GET /api/health-card`. The clock, the random suffix and the inserted id are inputs. */
  method Get(store: Store, session: Option<UserPayload>, nowMs: nat, suffix: string, newId: Id)
    returns (r: Reply<HealthCard>)
    requires RandomSuffix(suffix)
    modifies store
    ensures !HasRole(session, Patient) ==>
      r == Err(Unauthorized, "Unauthorized") && store.Snapshot() == old(store.Snapshot())
    ensures HasRole(session, Patient) ==>
      var uid := session.value.userId;
      match FindOne(old(store.healthCards), (c: HealthCard) => OwnedBy(uid, c))
      case Some(c) => r == Ok(c) && store.Snapshot() == old(store.Snapshot())
      case None =>
        r == Ok(NewCard(newId, uid, nowMs, suffix))
        && store.Snapshot() == old(store.Snapshot()).(healthCards := old(store.healthCards) + [NewCard(newId, uid, nowMs, suffix)])
  {
    if !HasRole(session, Patient) {
      return Err(Unauthorized, "Unauthorized");
    }
    var uid := session.value.userId;
    var existing := FindOne(store.healthCards, (c: HealthCard) => OwnedBy(uid, c));
    if existing.Some? {
      return Ok(existing.value);
    }
    var card := NewCard(newId, uid, nowMs, suffix);
    store.healthCards := store.healthCards + [card];
    r := Ok(card);
  }

  /** After GET succeeds the caller owns a card: a second GET creates nothing. */
  lemma GetCreatesAtMostOnce(cards: seq<HealthCard>, uid: Id, id: Id, nowMs: nat, suffix: string)
    requires RandomSuffix(suffix)
    requires FindOne(cards, (c: HealthCard) => OwnedBy(uid, c)).None?
    ensures FindOne(cards + [NewCard(id, uid, nowMs, suffix)], (c: HealthCard) => OwnedBy(uid, c)).Some?
  {
    var s := cards + [NewCard(id, uid, nowMs, suffix)];
    assert OwnedBy(uid, s[|s| - 1]);
  }

  // ---- PATCH: partial update ---------------------------------------------------------------

  /** The fields of the PATCH body the route reads. */
  datatype CardPatch = CardPatch(
    bloodGroup: Option<string>,
    allergies: Option<seq<string>>,
    emergencyContact: Option<EmergencyContact>,
    medicalConditions: Option<seq<string>>)

  /** The `updateData` document handed to `$set`: `updatedAt` and the fields that are set. */
  datatype CardUpdate = CardUpdate(
    updatedAt: Timestamp,
    bloodGroup: Option<string>,
    allergies: Option<seq<string>>,
    emergencyContact: Option<EmergencyContact>,
    medicalConditions: Option<seq<string>>)

  /** Fills `updateData` one truthy field at a time (arrays and objects are always truthy). */
  method BuildUpdate(body: CardPatch, nowMs: Timestamp) returns (u: CardUpdate)
    ensures u.updatedAt == nowMs
    ensures u.bloodGroup == (if Truthy(body.bloodGroup) then body.bloodGroup else None)
    ensures u.allergies == body.allergies
    ensures u.emergencyContact == body.emergencyContact
    ensures u.medicalConditions == body.medicalConditions
  {
    u := CardUpdate(nowMs, None, None, None, None);
    if Truthy(body.bloodGroup) { u := u.(bloodGroup := body.bloodGroup); }
    if body.allergies.Some? { u := u.(allergies := body.allergies); }
    if body.emergencyContact.Some? { u := u.(emergencyContact := body.emergencyContact); }
    if body.medicalConditions.Some? { u := u.(medicalConditions := body.medicalConditions); }
  }

  /** `$set: updateData` on one card: a field the update carries is overwritten, every other
      field keeps its value. */
  function SetCard(c: HealthCard, u: CardUpdate): (d: HealthCard)
    ensures d.id == c.id && d.patientId == c.patientId && d.cardNumber == c.cardNumber
    ensures d.qrCode == c.qrCode && d.createdAt == c.createdAt && d.updatedAt == u.updatedAt
    ensures d.bloodGroup == (if u.bloodGroup.Some? then u.bloodGroup else c.bloodGroup)
    ensures d.allergies == (if u.allergies.Some? then u.allergies else c.allergies)
    ensures d.emergencyContact == (if u.emergencyContact.Some? then u.emergencyContact else c.emergencyContact)
    ensures d.medicalConditions == (if u.medicalConditions.Some? then u.medicalConditions else c.medicalConditions)
  {
    c.(updatedAt := u.updatedAt,
       bloodGroup := if u.bloodGroup.Some? then u.bloodGroup else c.bloodGroup,
       allergies := if u.allergies.Some? then u.allergies else c.allergies,
       emergencyContact := if u.emergencyContact.Some? then u.emergencyContact else c.emergencyContact,
       medicalConditions := if u.medicalConditions.Some? then u.medicalConditions else c.medicalConditions)
  }

  /** Applying the same update twice is applying it once. */
  lemma SetCardIdempotent(c: HealthCard, u: CardUpdate)
    ensures SetCard(SetCard(c, u), u) == SetCard(c, u)
  {
  }

  /** `PATCH /api/health-card`. */
  method Patch(store: Store, session: Option<UserPayload>, body: CardPatch, nowMs: Timestamp)
    returns (r: Reply<bool>)
    modifies store
    ensures !HasRole(session, Patient) ==>
      r == Err(Unauthorized, "Unauthorized") && store.Snapshot() == old(store.Snapshot())
    ensures HasRole(session, Patient) ==>
      var uid := session.value.userId;
      var owned := (c: HealthCard) => OwnedBy(uid, c);
      match FindFirst(old(store.healthCards), owned)
      case None =>
        r == Err(NotFound, "Health card not found") && store.Snapshot() == old(store.Snapshot())
      case Some(i) =>
        r == Ok(true)
        && |store.healthCards| == |old(store.healthCards)|
        && (forall j :: 0 <= j < |store.healthCards| && j != i ==> store.healthCards[j] == old(store.healthCards[j]))
        && store.healthCards[i].patientId == uid
        && store.healthCards[i].cardNumber == old(store.healthCards[i].cardNumber)
        && store.healthCards[i].qrCode == old(store.healthCards[i].qrCode)
        && store.healthCards[i] == SetCard(old(store.healthCards[i]), CardUpdate(nowMs,
             if Truthy(body.bloodGroup) then body.bloodGroup else None,
             body.allergies, body.emergencyContact, body.medicalConditions))
        && store.Snapshot() == old(store.Snapshot()).(healthCards := store.healthCards)
  {
    if !HasRole(session, Patient) {
      return Err(Unauthorized, "Unauthorized");
    }
    var uid := session.value.userId;
    var u := BuildUpdate(body, nowMs);
    var owned := (c: HealthCard) => OwnedBy(uid, c);
    if FindFirst(store.healthCards, owned).None? {
      return Err(NotFound, "Health card not found");
    }
    store.healthCards := UpdateFirst(store.healthCards, owned, (c: HealthCard) => SetCard(c, u));
    r := Ok(true);
  }
}
