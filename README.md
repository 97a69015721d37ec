# HealthApp, modelled in Dafny

HealthApp is a hospital management web application built with Next.js and MongoDB. Patients,
doctors, administrators and pharmacists sign in with an email and a password. The server hands
out a signed session token in the `auth-token` cookie. A request gate (`middleware.ts`) keeps
signed-out visitors on the public pages and each role inside its own area. The API routes read
and write eight collections: users, appointments, medical records, prescriptions, payments,
medicines, hospitals and health cards. The pages of each role gather form input, call these
routes and show what they answer.

This project models the core of that system and proves properties of the model:

- **Sessions.** `Auth` models issuing, verifying, setting and clearing the session token.
- **Request gate.** `Middleware` models the gate. `Middleware.Decide` follows the code as
  written. `Middleware.DecideIntended` is the corrected version; see "Findings".
- **Database.** `Db` holds the database. `Db.Db` is the value every reading route sees.
  `Db.Store` is a class whose collection fields the writing routes reassign.
- **Query primitives.** `Query` holds MongoDB's `find`, `sort`, `limit`, `findOne`,
  `updateOne` and `$group`, each specified by what it selects. `Guards` holds the role checks
  and the row scoping every listing route starts with.
- **API routes.** There is one module per route. A route that only reads is a function over
  `Db.Db`, or a method without `modifies` when the source builds its query document step by
  step. A route that writes is a method with `modifies store`. It states when the request
  succeeds, the whole new store on success and an unchanged store on every error path.
- **Pages.** There is one module per page. The decisions a page makes are functions: which
  request it sends, where it navigates, and which message it shows. A page whose handlers
  update its state becomes a class with those fields. The server's reply is a parameter of
  the handler that would await it.
- **Inputs from outside.** The clock, random suffixes, inserted ids, password salts, the
  signing key and `new Date(...)` parses are all parameters.

Every error answer is a `Reply` value `Err(status, message)` with the source's own status and
text. Every success is `Ok(value)`.

## Model

| member | source | states |
|---|---|---|
| Auth.CreateToken | HealthApp/lib/auth.ts:13-19 | The token carries the payload and the signing key. It is issued at the current whole second and expires seven days later. |
| Auth.VerifyToken | HealthApp/lib/auth.ts:21-28 | A payload comes back exactly when the token was signed with the key and its expiry is still ahead, and it is the token's own payload. Every other value gives null, never an exception. |
| Auth.IssuedTokenLifetime | HealthApp/lib/auth.ts:13-28 | An issued token verifies, to its own payload, exactly while fewer than seven days of whole seconds have passed. |
| Auth.ForeignKeyRejected | HealthApp/lib/auth.ts:4 | A token signed with any other secret never verifies. |
| Auth.CookieMaxAgeIsTokenLifetime | HealthApp/lib/auth.ts:45 | The cookie's maxAge equals the token lifetime set by `setExpirationTime("7d")`. |
| Auth.GetSession | HealthApp/lib/auth.ts:30-37 | With no `auth-token` cookie there is no session. Otherwise the session is exactly what verifying the cookie's value gives. |
| Auth.VerifyAuth | HealthApp/lib/auth.ts:55-57 | `verifyAuth` gives the same result as `getSession`. |
| Auth.CookieJar.constructor | HealthApp/lib/auth.ts:30-32 | The jar starts with the request's cookies. |
| Auth.CookieJar.SetAuthCookie | HealthApp/lib/auth.ts:39-48 | Only `auth-token` changes. It becomes the token, with a seven-day maxAge and path "/". |
| Auth.CookieJar.ClearAuthCookie | HealthApp/lib/auth.ts:50-53 | `auth-token` is removed and every other cookie is kept. |
| Auth.SessionAfterSet | HealthApp/lib/auth.ts:30-48 | Reading the session right after setting the cookie verifies exactly the token just set. |
| Auth.ClearDoesNotRevoke | HealthApp/lib/auth.ts:50-53 | After clearing, the request has no session. A copy of the same unexpired token still verifies, because clearing revokes nothing. |
| Password.HashPassword | HealthApp/app/api/auth/register/route.ts:26 | The stored hash keeps its salt and verifies against the password it was made from. |
| Password.VerifyHashed | HealthApp/app/api/auth/login/route.ts:26 | A hash accepts an attempt exactly when the attempt is the original password, whatever the salt. |
| Types.ParseRole | HealthApp/lib/types.ts:26 | Only the four role names parse, each to its role. |
| Types.RoleNameParses | HealthApp/lib/types.ts:26 | Every role's name parses back to that role. |
| Types.EnumerationNamesInjective | HealthApp/lib/types.ts:10-17 | No two members of any union share a name. (Also lines 26, 30, 51, 83, 107-108 of the same file.) |
| Types.View | HealthApp/app/api/auth/me/route.ts:18 | The `{password: 0}` projection keeps the id, email, role, name, profile and timestamps. |
| Types.ViewForgetsOnlyPassword | HealthApp/app/api/auth/me/route.ts:18 | Two users have the same view exactly when they differ at most in their password. |
| Middleware.RolePathOf | HealthApp/middleware.ts:6-11 | A role name finds its prefix in `rolePaths`. Any other string finds nothing, which reads as "undefined". (Also lines 36 of the same file.) |
| Middleware.EveryRootedPathIsPublic | HealthApp/middleware.ts:5-19 | Every path starting with "/" counts as public and is let through, whatever the cookies. |
| Middleware.NoCookieRedirectsToLogin | HealthApp/middleware.ts:22-26 | A non-public path without the cookie is redirected to /auth/login. |
| Middleware.BadTokenIsNoCookie | HealthApp/middleware.ts:29-33 | A cookie that does not verify gets the same decision as no cookie. |
| Middleware.RoleGate | HealthApp/middleware.ts:35-41 | With a verified payload, a non-public path proceeds exactly when it starts with the role's prefix. Otherwise it is redirected to that role's dashboard. |
| Middleware.RolePathsDistinct | HealthApp/middleware.ts:6-11 | Each role's prefix is "/" followed by its name, and no two roles share one. |
| Middleware.RawPrefixCheck | HealthApp/middleware.ts:37 | The role check compares raw prefixes, so "/patientX" counts as inside "/patient". |
| Middleware.MatcherExclusions | HealthApp/middleware.ts:44-46 | Paths under /api, /_next/static and /_next/image never reach the gate, nor do favicon.ico paths (with the "." as a wildcard). |
| Middleware.MatchedPathsProceed | HealthApp/middleware.ts:5 | Every request the gate does run on is let through. (Also lines 17, 44-46 of the same file.) |
| Middleware.RootPrefixCounterexample | HealthApp/middleware.ts:5-17 | As written, a signed-out request for /admin/dashboard proceeds. The intended gate sends it to sign in. |
| Middleware.IntendedGate | HealthApp/middleware.ts:21-41 | The corrected gate sends every non-public request without a valid token to sign in. A signed-in user goes to their dashboard when outside their area and proceeds inside it. |
| Middleware.Resolve | HealthApp/middleware.ts:38 | `new URL(target, request.url)` as the browser follows it: the result is always a rooted path. A target starting with "/" replaces the path, and any other target replaces the request path's last segment. (Also lines 25, 32 of the same file.) |
| Middleware.IntendedNoRedirectLoop | HealthApp/middleware.ts:21-41 | For a token whose role is one of the four, following the corrected gate's redirect, resolved against the request's path, leads to a request it lets through. |
| Middleware.UnknownRoleRedirectsForever | HealthApp/middleware.ts:35-39 | For a verified token whose role has no `rolePaths` entry, every non-public path is redirected to "undefined/dashboard". That resolves to another non-public path whose directory has grown by "undefined/", so following the redirects never reaches a page. |
| Db.Store.constructor | HealthApp/app/api/auth/register/route.ts:16-17 | The store starts out holding exactly the given collections. |
| Db.UserById | HealthApp/app/api/auth/me/route.ts:18 | `findOne({_id})` returns a stored user with that id, or null when no user has it. |
| Db.UserViewById | HealthApp/app/api/appointments/route.ts:38-39 | The password-free view is found exactly when a user with that id is stored. It carries that id and is the view of a stored user. |
| Db.Views | HealthApp/app/api/patients/route.ts:15 | A projected `find` lists each user's view, in stored order. |
| Db.ViewsMembership | HealthApp/app/api/patients/route.ts:15 | A view is listed exactly when it is the view of a stored user. |
| Db.UserByEmail | HealthApp/app/api/auth/register/route.ts:20 | `findOne({email})` returns a stored user with that email, or null when none has it. |
| Db.AppendKeepsEmailsUnique | HealthApp/app/api/auth/register/route.ts:19-41 | Inserting a user whose email no stored user has keeps the emails unique. |
| Db.Docs | HealthApp/app/api/appointments/route.ts:36-49 | Strips the attached users and keeps the documents, one for one. |
| Db.Populate | HealthApp/app/api/appointments/route.ts:36-49 | There is one output per document, in order, each with the views of its own patient and doctor. |
| Guards.BuildRowQuery | HealthApp/app/api/appointments/route.ts:20-26 | The query matches exactly the rows in the caller's scope. For a patient these are the rows with their patientId, for a doctor the rows with their doctorId, and for any other role every row. |
| Query.Filter | HealthApp/app/api/appointments/route.ts:32 | `find(query)` keeps exactly the matching documents, in stored order. |
| Query.FilterMultiplicity | HealthApp/app/api/appointments/route.ts:32 | A matching document is found as often as it is stored. A non-matching one is never found. |
| Query.FindOne | HealthApp/app/api/health-card/route.ts:17-19 | `findOne(filter)` gives the first stored match, or null when nothing matches. |
| Query.UpdateFirst | HealthApp/app/api/health-card/route.ts:79-82 | `updateOne` rewrites the first match and leaves every other document and the length as they were. |
| Query.SortDesc | HealthApp/app/api/appointments/route.ts:32 | `sort({key: -1})` gives the same documents with the same multiplicities, largest key first. |
| Query.InsertDescSorted | HealthApp/app/api/appointments/route.ts:32 | Inserting into a sorted sequence keeps it sorted. This is the inductive step of the sort. |
| Query.Take | HealthApp/app/api/health-card/scan/route.ts:41-45 | `limit(n)` keeps the first min(n, length) documents. |
| Query.NewestMatching | HealthApp/app/api/health-card/scan/route.ts:41-59 | Sort-then-limit returns as many matches as exist, up to n. All of them match, they come newest first, and no match left out is newer than one returned. |
| Query.GroupCount | HealthApp/app/api/admin/stats/route.ts:22-30 | `$group` with `$sum: 1` gives one group per distinct value, keyed by it. Its count is the number of occurrences of that value, at least one. |
| Query.GroupCountSum | HealthApp/app/api/admin/stats/route.ts:22-30 | The group counts add up to the number of documents. |
| AppointmentsRoute.BuildQuery | HealthApp/app/api/appointments/route.ts:20-30 | The query matches exactly the caller's rows, restricted to `status` when that parameter is non-empty. |
| AppointmentsRoute.Get | HealthApp/app/api/appointments/route.ts:9-51 | Signed out gives 401. Otherwise the answer lists every visible appointment as often as it is stored and no other, sorted by date, newest first, each with its patient's and its doctor's password-free view. |
| AppointmentsRoute.Post | HealthApp/app/api/appointments/route.ts:60-90 | Signed out gives 401 and missing fields give 400, with nothing written. A signed-in caller with all four fields always succeeds. On success exactly one appointment is appended and everything else in the store is unchanged. It is a "scheduled" booking by the caller with the doctor, time and reason from the body and the parsed date, and its id is returned. |
| MedicalRecordsRoute.Get | HealthApp/app/api/medical-records/route.ts:8-42 | Signed out gives 401. Otherwise the answer lists every record in the caller's scope as often as it is stored and no other, newest first, with the patient's and the doctor's views. |
| PrescriptionsRoute.Prescriptions | HealthApp/app/api/prescriptions/route.ts:29-48 | Strips the attached documents and keeps the prescriptions, one for one. |
| PrescriptionsRoute.MedicineById | HealthApp/app/api/prescriptions/route.ts:33-35 | Gives a stored medicine with the prescription's medicineId, or null when there is none. |
| PrescriptionsRoute.PopulateAll | HealthApp/app/api/prescriptions/route.ts:29-48 | There is one output per prescription, in order, with the views of its patient and doctor and its medicine document. |
| PrescriptionsRoute.Get | HealthApp/app/api/prescriptions/route.ts:8-50 | Signed out gives 401. Otherwise the answer lists every prescription in the caller's scope as often as it is stored and no other, newest first, each populated. |
| RegisterRoute.NewAccount | HealthApp/app/api/auth/register/route.ts:26-39 | The inserted user has the body's email, name and role as given. Its hash verifies the password. Its profile holds only phone, dateOfBirth and gender, and both timestamps are now. |
| RegisterRoute.PayloadOf | HealthApp/app/api/auth/register/route.ts:44-49 | The token payload carries the inserted id and the body's email, role and name. |
| RegisterRoute.Register | HealthApp/app/api/auth/register/route.ts:12-62 | A missing field gives 400 "Missing required fields". Given all fields, 400 "User already exists" comes exactly when the email is stored. On any error the store and the cookies are unchanged. A complete body whose email is not stored always succeeds. On success the new account is appended, the session cookie holds its freshly signed token and the account is returned. Unique emails stay unique. |
| RegisterRoute.AnyRoleRegisters | HealthApp/app/api/auth/register/route.ts:12-33 | The role is stored as sent. "admin" creates an administrator, and a string that is no role is stored as is. |
| RegisterRoute.SignedInAsCreated | HealthApp/app/api/auth/register/route.ts:44-61 | The cookie just set yields a session whose id, email, name and role are the ones the answer reports. |
| LoginRoute.Authenticate | HealthApp/app/api/auth/login/route.ts:12-29 | A missing email or password gives 400. Otherwise the check succeeds exactly when the first user with that email verifies the password, and every other case gives 401 "Invalid credentials". |
| LoginRoute.PayloadFor | HealthApp/app/api/auth/login/route.ts:32-37 | The token payload carries the stored id, email, role and name. |
| LoginRoute.Login | HealthApp/app/api/auth/login/route.ts:12-50 | On failure the cookies are unchanged and the error is the credential check's. On success the cookie holds a token for the authenticated user, whose account is returned. |
| LoginRoute.UniformFailure | HealthApp/app/api/auth/login/route.ts:21-29 | An unknown email and a wrong password for a known email get the same 401. |
| LoginRoute.CreatedPasswordLogsIn | HealthApp/app/api/auth/login/route.ts:20-29 | The password an account was hashed from logs in to that account. |
| LoginRoute.UniqueEmailFindsUser | HealthApp/app/api/auth/login/route.ts:20 | With unique emails, a stored user is the one its email finds. |
| LoginRoute.AcceptsExactlyStoredCredentials | HealthApp/app/api/auth/login/route.ts:20-29 | With unique emails, credentials are accepted exactly when some stored user has that email and password. |
| MeRoute.Get | HealthApp/app/api/auth/me/route.ts:9-39 | Signed out gives 401. 404 comes exactly when no user has the token's id. Otherwise the answer reports the stored user's twelve listed fields. |
| MeRoute.OnlyIdFromToken | HealthApp/app/api/auth/me/route.ts:18 | Two tokens with the same user id get the same answer, whatever role, email or name they carry. |
| HealthCardRoute.CardNumber | HealthApp/app/api/health-card/route.ts:23 | A new card number is "HC", then the clock's decimal digits, then the suffix upper-cased. Every character after "HC" is a digit or an upper-case letter. |
| HealthCardRoute.JsonEscapeChar | HealthApp/app/api/health-card/route.ts:25 | `JSON.stringify` writes a letter or digit unchanged. A quote becomes `\"` and a backslash `\\`. A control character becomes an escape that starts with a backslash and holds no control character. Every other character is written unchanged. |
| HealthCardRoute.JsonEscape | HealthApp/app/api/health-card/route.ts:25 | A string of letters and digits is written unchanged. |
| HealthCardRoute.PayloadHoldsCardNumber | HealthApp/app/api/health-card/route.ts:23-25 | The QR payload holds the card number verbatim right after its key. |
| HealthCardRoute.NewCard | HealthApp/app/api/health-card/route.ts:23-34 | A created card belongs to the caller and has a well-formed number. Its QR data is the JSON of that number and the caller's id, and it has no medical fields. |
| HealthCardRoute.Get | HealthApp/app/api/health-card/route.ts:9-53 | A caller who is not a patient gets 401 and nothing is written. The caller's existing card is returned unchanged. When there is none, exactly one new card is appended and returned. |
| HealthCardRoute.GetCreatesAtMostOnce | HealthApp/app/api/health-card/route.ts:17-36 | After a card is created the caller owns one, so a second GET creates nothing. |
| HealthCardRoute.BuildUpdate | HealthApp/app/api/health-card/route.ts:73-77 | `updateData` always holds updatedAt, holds bloodGroup only when it is non-empty, and holds the arrays and the contact object whenever they are present. |
| HealthCardRoute.SetCard | HealthApp/app/api/health-card/route.ts:79-82 | `$set` overwrites exactly the fields the update carries. The id, owner, number, QR data and creation time are kept. |
| HealthCardRoute.SetCardIdempotent | HealthApp/app/api/health-card/route.ts:79-82 | Applying the same update twice is the same as applying it once. |
| HealthCardRoute.Patch | HealthApp/app/api/health-card/route.ts:62-88 | A caller who is not a patient gets 401. With no card there is 404 and nothing is written. Otherwise only the caller's first card changes, to `$set` of the built update, and it keeps its owner, number and QR data. |
| HealthCardScanRoute.Summary | HealthApp/app/api/health-card/scan/route.ts:62-74 | The patient object copies the listed fields of the stored user and no password. |
| HealthCardScanRoute.Histories | HealthApp/app/api/health-card/scan/route.ts:41-59 | The patient's records and prescriptions come newest first, at most ten each, and their appointments by latest date, at most five. Each list holds the newest matches. |
| HealthCardScanRoute.Scan | HealthApp/app/api/health-card/scan/route.ts:7-98 | Non-doctors get 401 and a missing number gets 400. An unknown number gives 404 "Invalid health card", and a card without its patient gives 404 "Patient not found", each exactly when that is the case. On success the found card, its patient's summary and the three bounded histories are returned. |
| HealthCardScanRoute.ScanScoped | HealthApp/app/api/health-card/scan/route.ts:41-59 | Every returned record, prescription and appointment is stored and belongs to the card's patient, within the limits. |
| DoctorsRoute.BuildQuery | HealthApp/app/api/doctors/route.ts:18-21 | The query matches exactly the doctors, of the department when the parameter is non-empty. |
| DoctorsRoute.Get | HealthApp/app/api/doctors/route.ts:7-25 | Signed out gives 401. Otherwise every listed view is a doctor's, of the department when one is given. A view is listed exactly when it is the view of such a stored user. |
| PatientsRoute.Get | HealthApp/app/api/patients/route.ts:7-17 | Non-doctors get 401. A doctor gets exactly the password-free views of the stored patients. |
| PatientsRoute.SameForEveryDoctor | HealthApp/app/api/patients/route.ts:15 | The answer does not depend on which doctor asks: there is no scoping by caller. |
| AdminAppointmentsRoute.Get | HealthApp/app/api/admin/appointments/route.ts:7-33 | Non-admins get 401. An admin gets every appointment, with its stored multiplicity, by latest date, each with its patient's and doctor's views. |
| AdminStatsRoute.RoleValues | HealthApp/app/api/admin/stats/route.ts:26 | Lists the `$role` field of every user, in order. |
| AdminStatsRoute.StatusValues | HealthApp/app/api/admin/stats/route.ts:38 | Lists the `$status` field of every appointment, in order. |
| AdminStatsRoute.GroupCountIsGroups | HealthApp/app/api/admin/stats/route.ts:21-43 | A `$group` count covers every value once, with its number of occurrences, and the counts add up to the number of documents. |
| AdminStatsRoute.Figures | HealthApp/app/api/admin/stats/route.ts:14-45 | The four totals are the collection sizes. The role and status groups are counted collections of the stored values, and the recent list holds the ten newest appointments by creation. |
| AdminStatsRoute.Get | HealthApp/app/api/admin/stats/route.ts:7-57 | Non-admins get 401. An admin gets the figures. |
| AdminStatsRoute.RoleGroupsAreStoredRoles | HealthApp/app/api/admin/stats/route.ts:21-31 | A role appears among the groups exactly when some stored user has it. |
| MedicalRecordsCreateRoute.SymptomList | HealthApp/app/api/medical-records/create/route.ts:29 | An array of symptoms is kept as is. A single string is wrapped in a one-element array. |
| MedicalRecordsCreateRoute.NewRecord | HealthApp/app/api/medical-records/create/route.ts:24-36 | The inserted record's doctor is the caller and its patient is the body's. appointmentId is kept only when non-empty, prescriptions default to [], the optional texts are copied and both timestamps are now. |
| MedicalRecordsCreateRoute.Create | HealthApp/app/api/medical-records/create/route.ts:9-42 | Non-doctors get 401 and a missing field gives 400, with nothing written. A doctor with a complete body always succeeds. On success exactly that record is appended and its id returned. |
| MedicalRecordsCreateRoute.AuthoredByCaller | HealthApp/app/api/medical-records/create/route.ts:25-26 | Whatever the body says, the record lies in the writing doctor's scope and in the named patient's scope. |
| PrescriptionsCreateRoute.NewPrescription | HealthApp/app/api/prescriptions/create/route.ts:24-36 | The inserted prescription's doctor is the caller and it is "active". It names the body's medicine, or a freshly drawn id when none is given, and copies the dosage fields. |
| PrescriptionsCreateRoute.Create | HealthApp/app/api/prescriptions/create/route.ts:9-42 | Non-doctors get 401 and a missing field gives 400, with nothing written. A doctor with a complete body always succeeds. On success exactly that prescription is appended and its id returned. |
| PrescriptionsCreateRoute.AuthoredByCaller | HealthApp/app/api/prescriptions/create/route.ts:26-33 | Whatever the body says, the prescription lies in the caller's scope and carries a declared status. |
| HospitalsRoute.Get | HealthApp/app/api/hospitals/route.ts:8-18 | Signed out gives 401. Otherwise the answer is the active hospitals in stored order, a hospital being listed exactly when it is stored and active. |
| HospitalsRoute.NewHospital | HealthApp/app/api/hospitals/route.ts:42-55 | The inserted hospital has the given fields, type "private" unless one is given, [] for missing arrays and 09:00-17:00 for missing hours. It is always active and stamped now. |
| HospitalsRoute.Post | HealthApp/app/api/hospitals/route.ts:27-62 | Non-admins get 401 and a missing field gives 400, with nothing written. An admin with a complete body always succeeds. On success exactly that hospital is appended and returned. |
| HospitalsRoute.CreatedIsListed | HealthApp/app/api/hospitals/route.ts:16 | After a creation, GET lists what it listed before followed by the new hospital. (Also lines 52, 57 of the same file.) |
| MedicinesRoute.BuildQuery | HealthApp/app/api/medicines/route.ts:20-26 | The query document matches a medicine exactly when it is wanted: a non-empty search is found, ignoring case, in its name or its generic name, and a non-empty category is equal to its category. |
| MedicinesRoute.Get | HealthApp/app/api/medicines/route.ts:6-35 | Signed out gives 401. Otherwise the answer is the wanted medicines in stored order. |
| MedicinesRoute.GetSelects | HealthApp/app/api/medicines/route.ts:20-28 | The answer is a subsequence of the catalogue holding exactly the wanted medicines. With neither parameter it is the whole catalogue. |
| MedicinesRoute.Post | HealthApp/app/api/medicines/route.ts:37-77 | Only pharmacists and admins may add (401 otherwise), and a missing field gives 400 with nothing written. A pharmacist or admin with a complete body always succeeds. On success exactly the described medicine is appended, with sideEffects [] unless an array was given, and its id is returned. |
| MedicinesRoute.ZeroStockZeroPrice | HealthApp/app/api/medicines/route.ts:47 | A stock of 0 passes the required-fields check, while a price of 0 is rejected as missing. |
| AdminStaffRoute.NewStaff | HealthApp/app/api/admin/staff/route.ts:52-66 | The inserted account has the given email, name and role, a hash that verifies against the given password, the given profile fields, and hospitalId only when non-empty. |
| AdminStaffRoute.Post | HealthApp/app/api/admin/staff/route.ts:9-83 | Non-admins get 401. A missing field gives 400, a role other than doctor or pharmacist gives 400, and a taken email gives 400 (exactly when the email is taken), all with nothing written. An admin with a complete staff body and an email not yet stored always succeeds. On success the account is appended, the unique-email invariant is kept and the account summary is returned. |
| AdminStaffRoute.CreatesOnlyStaff | HealthApp/app/api/admin/staff/route.ts:35-37 | Every account this route creates has a declared role that is neither admin nor patient. |
| AdminStaffRoute.Get | HealthApp/app/api/admin/staff/route.ts:86-107 | Non-admins get 401. Otherwise the answer is a subsequence of the users holding exactly the doctors and pharmacists, whole, password hashes included. |
| PaymentsRoute.BuildQuery | HealthApp/app/api/payments/route.ts:17-20 | The query matches a payment exactly when the caller may see it: a patient sees only their own payments, and every other role sees all of them. |
| PaymentsRoute.Get | HealthApp/app/api/payments/route.ts:7-29 | Signed out gives 401. Otherwise the answer is sorted newest first and holds each visible payment exactly as often as it is stored. |
| PaymentsRoute.TransactionId | HealthApp/app/api/payments/route.ts:54 | A transaction id is "TXN" followed by at least one character, every one a decimal digit or an upper-case letter. |
| PaymentsRoute.NewPayment | HealthApp/app/api/payments/route.ts:48-57 | The inserted payment belongs to the caller and is "completed". It carries the given amount and method, the appointment only when given, a transaction id, and both timestamps now. |
| PaymentsRoute.Post | HealthApp/app/api/payments/route.ts:31-70 | Signed out gives 401 and a missing amount or method gives 400, with nothing written. A signed-in caller with both fields always succeeds. On success exactly that payment is appended, and its id and transaction id are returned. |
| PaymentsRoute.ZeroAmountRefused | HealthApp/app/api/payments/route.ts:41 | An amount of 0 is refused as missing. |
| PaymentsProcessRoute.MarkPaid | HealthApp/app/api/payments/process/route.ts:54-65 | Only the first appointment with that id changes, and only in paymentStatus "paid", paymentId and updatedAt. The length and every other appointment stay the same. |
| PaymentsProcessRoute.MarkPaidIgnoresOwner | HealthApp/app/api/payments/process/route.ts:54-56 | The appointment marked is the one with the id, whatever its patient. Its patient, doctor, status and date keep their values. |
| PaymentsProcessRoute.MarkPaidUnknownId | HealthApp/app/api/payments/process/route.ts:55-56 | An id naming no appointment leaves the appointments unchanged. |
| PaymentsProcessRoute.Process | HealthApp/app/api/payments/process/route.ts:7-77 | Signed out gives 401, missing fields give 400 and a declined charge gives 400, all with nothing written. A signed-in caller with a complete body and an approved charge always succeeds. On success the payment is appended, the named appointment is marked paid when an id is given, and nothing else changes. |
| ProfileRoute.Get | HealthApp/app/api/profile/route.ts:7-28 | Signed out gives 401. A 404 comes exactly when no user has the caller's id. Otherwise the answer is the caller's own record without its password. |
| ProfileRoute.Pick | HealthApp/app/api/profile/route.ts:58-68 | A body field that is given and non-empty replaces the stored value. Otherwise the stored value stays. |
| ProfileRoute.BuildUpdate | HealthApp/app/api/profile/route.ts:56-68 | The update document holds updatedAt, no password, and for each of the eleven editable fields a key exactly when the body's field is non-empty. |
| ProfileRoute.KeyIfTruthy | HealthApp/app/api/profile/route.ts:58 | The key is set, to the field, exactly when the field is non-empty. |
| ProfileRoute.KeyOf | HealthApp/app/api/profile/route.ts:58-68 | The key is present exactly when the field is non-empty, and then it equals the field. |
| ProfileRoute.Override | HealthApp/app/api/profile/route.ts:90 | A key present in the `$set` document replaces the stored field. An absent key keeps it. |
| ProfileRoute.OverrideKeyOf | HealthApp/app/api/profile/route.ts:58 | Building a key and then setting it is the same as picking the body field when it is non-empty. (Also lines 90 of the same file.) |
| ProfileRoute.SetProfileOverlays | HealthApp/app/api/profile/route.ts:56-68 | Applying the built update to a record overlays the body on it. Id, email, role and createdAt are kept, and the password changes only when a new hash was made. (Also lines 88-91 of the same file.) |
| ProfileRoute.PasswordStep | HealthApp/app/api/profile/route.ts:71-86 | Without both password fields nothing is done. With both: a missing record gives 404, a wrong current password gives 400, and otherwise the result is the hash of the new password. |
| ProfileRoute.Put | HealthApp/app/api/profile/route.ts:30-109 | Signed out gives 401. A 404 comes exactly when the caller has no record, and a 400 exactly when a password change is asked with a wrong current password; every error writes nothing. A signed-in caller who has a record, and who gives the right current password when changing it, always succeeds. On success only the caller's first record is overlaid and the answer is its new view. |
| ProfileRoute.ApplyUpdate | HealthApp/app/api/profile/route.ts:88-99 | The update leaves the collection's length and every other record unchanged, overlays the caller's first record, and the follow-up findOne returns that record's view. |
| ProfileRoute.FindFirstView | HealthApp/app/api/profile/route.ts:97-99 | findOne by id returns the view of the first record with that id. |
| LoginPage.RoleRoute | HealthApp/app/auth/login/page.tsx:38-45 | Each of the four roles maps to its area's dashboard. Any other role string finds no entry. |
| LoginPage.RoleRoutesDistinct | HealthApp/app/auth/login/page.tsx:38-43 | Every role lands on "/" + its name + "/dashboard", and distinct roles land on distinct dashboards. |
| LoginPage.AfterLogin | HealthApp/app/auth/login/page.tsx:31-47 | A failed reply shows its error, or "Login failed" when that is empty. A successful one navigates to the role's table entry. |
| LoginPage.LandsWhereGateRedirects | HealthApp/app/auth/login/page.tsx:38-45 | The page lands every role on the same dashboard the gate redirects that role to (HealthApp/middleware.ts:36-39). |
| LoginPage.LoginOutcomes | HealthApp/app/auth/login/page.tsx:25-45 | Every failure of the login route is shown with the route's own message. A successful login of a user with a declared role navigates to that role's dashboard. |
| RegisterPage.Validate | HealthApp/app/auth/register/page.tsx:29-37 | A mismatch is reported first, then a password shorter than 6 UTF-16 code units. The form passes exactly when the two passwords agree and are at least 6 units long. |
| RegisterPage.Body | HealthApp/app/auth/register/page.tsx:45 | Every form field is sent to the register route under its own name. |
| RegisterPage.ValidFormIsComplete | HealthApp/app/auth/register/page.tsx:29-45 | A form that passes the page's checks, with an offered role, a name and an email, is never refused by the register route as incomplete. (Also lines 88-93 of the same file.) |
| RegisterPage.OfferedRolesLand | HealthApp/app/auth/register/page.tsx:17 | The form opens as a male patient, "admin" is among the offered roles, and every offered role has a dashboard to land on. (Also lines 20, 88-93, 55-62 of the same file.) |
| RegisterPage.MismatchReportedFirst | HealthApp/app/auth/register/page.tsx:29-37 | A mismatched pair is reported as a mismatch even when the password is also too short. |
| RegisterPage.RegisterPageState.constructor | HealthApp/app/auth/register/page.tsx:12-23 | The page opens with the initial form, no error, not loading and no navigation. |
| RegisterPage.RegisterPageState.HandleSubmit | HealthApp/app/auth/register/page.tsx:25-68 | The request is sent exactly when the form passes its checks; otherwise the check's message is shown and nothing else changes. A failed reply shows its error, or "Registration failed". A successful one navigates to the role's dashboard. Loading ends false either way. |
| ScanQrPage.DropJsonSpace | HealthApp/app/doctor/scan-qr/page.tsx:40 | What remains after the leading JSON white space is no longer and does not start with white space. It is how the model tells text that can parse to an object with a cardNumber. |
| ScanQrPage.SkipSpace | HealthApp/app/doctor/scan-qr/page.tsx:49 | A `\s*` takes exactly the white space that follows the position, stopping at the end or at the first character that is not white space. |
| ScanQrPage.KvRunEnd | HealthApp/app/doctor/scan-qr/page.tsx:49 | The class run `[A-Za-z0-9-_/]+` is taken greedily: every character inside belongs to the class, and the next one does not. |
| ScanQrPage.KvAt | HealthApp/app/doctor/scan-qr/page.tsx:49 | A key=value match at a position needs "cardNumber" there, in any case. Its capture is non-empty and lies in the class. |
| ScanQrPage.FirstKv | HealthApp/app/doctor/scan-qr/page.tsx:49-50 | The leftmost key=value match. When there is none, no position matches, and a found capture is non-empty and lies in the class. |
| ScanQrPage.AlnumEnd | HealthApp/app/doctor/scan-qr/page.tsx:53 | The run `[A-Za-z0-9]+` is taken greedily. |
| ScanQrPage.FirstHcIndex | HealthApp/app/doctor/scan-qr/page.tsx:53 | The leftmost position where an HC match can start, with none before it, or none at all. |
| ScanQrPage.FirstHc | HealthApp/app/doctor/scan-qr/page.tsx:53-54 | The leftmost HC match is "HC", in either case, followed by one or more letters and digits. |
| ScanQrPage.AfterJson | HealthApp/app/doctor/scan-qr/page.tsx:48-60 | Whichever of the three later attempts decides, its result is non-empty. |
| ScanQrPage.Extract | HealthApp/app/doctor/scan-qr/page.tsx:35-61 | Empty text gives null, and a result is never empty. |
| ScanQrPage.ExtractBranches | HealthApp/app/doctor/scan-qr/page.tsx:38-54 | The attempts decide in order: a usable JSON cardNumber (trimmed), then the key=value capture, then the first HC run. Each capture is used as matched, since none can hold white space. |
| ScanQrPage.FallbackIsDead | HealthApp/app/doctor/scan-qr/page.tsx:52-58 | Whenever the plain-text test succeeds, the HC search has already returned the same string, so the last attempt never decides anything. |
| ScanQrPage.NoKvMatch | HealthApp/app/doctor/scan-qr/page.tsx:49 | Text without white space, in which every ':' or '=' follows a '"', has no key=value match. |
| ScanQrPage.PayloadHasNoKv | HealthApp/app/doctor/scan-qr/page.tsx:49 | The QR payload of an issued card (built at HealthApp/app/api/health-card/route.ts:24-26), with an alphanumeric patient id, has no key=value match. |
| ScanQrPage.FirstHcAfterPrefix | HealthApp/app/doctor/scan-qr/page.tsx:53 | An HC-shaped string placed after a prefix without any 'h' and before a non-alphanumeric character is the leftmost HC match. |
| ScanQrPage.PayloadFirstHc | HealthApp/app/doctor/scan-qr/page.tsx:53 | In the QR payload the leftmost HC match is the card number itself. |
| ScanQrPage.QrRoundTrip | HealthApp/app/doctor/scan-qr/page.tsx:35-61 | Extracting from an issued card's QR payload yields its card number, whether JSON.parse reports that number or fails. |
| ScanQrPage.WholeHcExtractsToItself | HealthApp/app/doctor/scan-qr/page.tsx:35-61 | With a parser that only accepts objects, text of the HC form extracts to itself. |
| ScanQrPage.HandleScan | HealthApp/app/doctor/scan-qr/page.tsx:122-138 | A failed extraction shows "Invalid health card number." and sends nothing. Otherwise the page posts the extracted, non-empty number. |
| ScanQrPage.ScanIssuedCard | HealthApp/app/doctor/scan-qr/page.tsx:79-94 | Scanning an issued card's QR code posts exactly its card number: the second extraction in handleScanWithCardNumber changes nothing. (Also lines 122-138 of the same file.) |
| ScanQrPage.KeyValueExample | HealthApp/app/doctor/scan-qr/page.tsx:49-50 | "cardNumber=ABC" extracts to "ABC". |
| ScanQrPage.PlainValueRejected | HealthApp/app/doctor/scan-qr/page.tsx:35-61 | "ABC" extracts to nothing. |
| ScanQrPage.KeyValueCaptureLostOnReExtraction | HealthApp/app/doctor/scan-qr/page.tsx:82-94 | A scanned "cardNumber=ABC" passes the camera callback, but the second extraction rejects it, so the page shows an error and sends no request. (Also lines 123-126 of the same file.) |
| PharmacistDashboardPage.StockStatus | HealthApp/app/pharmacist/dashboard/page.tsx:115-119 | "outOfStock" exactly at 0, "lowStock" exactly for other stocks below 10 (negatives included), and "inStock" exactly from 10 up. |
| PharmacistDashboardPage.StockLabel | HealthApp/app/pharmacist/dashboard/page.tsx:121-125 | "Out of Stock", "Low Stock" and "In Stock" exactly on the same three ranges. |
| PharmacistDashboardPage.LabelFollowsStatus | HealthApp/app/pharmacist/dashboard/page.tsx:115-125 | Two stocks get the same label exactly when they get the same status, and a negative stock is "lowStock". |
| PharmacistDashboardPage.FilteredMedicines | HealthApp/app/pharmacist/dashboard/page.tsx:109-113 | A medicine is listed exactly when the query, ignoring case, is found in its name or its generic name. |
| PharmacistDashboardPage.FilteredSelects | HealthApp/app/pharmacist/dashboard/page.tsx:109-113 | The list is an order-preserving subsequence of the catalogue. An empty query lists everything, and a non-empty one lists what the medicines route's search would select. |
| PatientPaymentsPage.Unpaid | HealthApp/app/patient/payments/page.tsx:52-54 | An appointment is listed exactly when it is fetched, its status is "scheduled" and its payment status is not "paid". |
| PatientPaymentsPage.PendingCases | HealthApp/app/patient/payments/page.tsx:52-54 | A scheduled appointment without a payment status is pending. No appointment with another status ever is. |
| PatientPaymentsPage.CashPayload | HealthApp/app/patient/payments/page.tsx:215-219 | The cash request names the appointment, posts 50 and sends no transaction or insurance fields. |
| PatientPaymentsPage.InsurancePayload | HealthApp/app/patient/payments/page.tsx:239-245 | The insurance request names the appointment, posts 50, and is the only one carrying a provider and a policy id. |
| PatientPaymentsPage.CardPayload | HealthApp/app/patient/payments/page.tsx:264-269 | The card request names the appointment, posts 50, and is the only one carrying a transaction id. |
| PatientPaymentsPage.PayloadsComplete | HealthApp/app/patient/payments/page.tsx:215-219 | Each of the three requests passes the process route's required-field check (HealthApp/app/api/payments/process/route.ts:17). (Also lines 239-245, 264-269 of the same file.) |
| PatientPaymentsPage.DisplayedAmountDiffers | HealthApp/app/patient/payments/page.tsx:111 | The amount shown, "Rs.5000.00", is not the amount posted, 50. (Also lines 217, 300 of the same file.) |
| PatientPaymentsPage.PaidLeavesPending | HealthApp/app/patient/payments/page.tsx:52-54 | Once the process route has marked an appointment paid, the page no longer lists it as pending, and every other appointment keeps its verdict. |
| ProfileForm.Mismatch | HealthApp/app/patient/profile/page.tsx:78-82 | An error comes exactly when the new password is non-empty and differs from its confirmation. An empty new password is never checked. |
| ProfileForm.PasswordKeys | HealthApp/app/patient/profile/page.tsx:97-100 | The current and new password keys are added exactly when both inputs are non-empty. |
| ProfileForm.AddPasswords | HealthApp/app/patient/profile/page.tsx:97-100 | The other keys keep their values, and the two password keys are added, with the inputs, exactly when both are non-empty. |
| ProfileForm.Field | HealthApp/app/patient/profile/page.tsx:105 | A key absent from the sent document reads as undefined on the other side. |
| ProfileForm.AsBody | HealthApp/app/patient/profile/page.tsx:105 | The profile route reads the password fields exactly as the page sent them. |
| ProfileForm.PasswordChangeRequested | HealthApp/app/patient/profile/page.tsx:97-100 | The route is asked to change the password exactly when both inputs were filled in (HealthApp/app/api/profile/route.ts:71). |
| PatientProfilePage.LoadForm | HealthApp/app/patient/profile/page.tsx:50-63 | Each input comes from the loaded record, "" when absent, and the password inputs start empty. |
| PatientProfilePage.BuildUpdateData | HealthApp/app/patient/profile/page.tsx:85-100 | The body holds exactly the nine form fields as typed, plus both passwords when both are filled in. The email is never sent. |
| PatientProfilePage.ResaveKeepsProfile | HealthApp/app/patient/profile/page.tsx:50-63 | Saving a freshly loaded form changes none of the stored profile fields, since an input left "" keeps the stored value. It sends no doctor fields and asks for no password change. (Also lines 85-100 of the same file.) |
| PatientProfilePage.PatientProfileState.constructor | HealthApp/app/patient/profile/page.tsx:21-38 | The page opens with no user, an empty form, no message and not saving. |
| PatientProfilePage.PatientProfileState.Loaded | HealthApp/app/patient/profile/page.tsx:49-63 | A loaded profile sets the user and the form, and nothing else. |
| PatientProfilePage.PatientProfileState.HandleSubmit | HealthApp/app/patient/profile/page.tsx:72-129 | A mismatch shows its message, sends nothing and changes neither the form nor the user. Otherwise the built body is sent. Success shows the success message, takes the returned user and clears only the password inputs. Failure shows the route's error and keeps the form. Saving ends false. |
| DoctorProfilePage.LoadForm | HealthApp/app/doctor/profile/page.tsx:46-55 | Each input comes from the loaded record, "" when absent, and the password inputs start empty. |
| DoctorProfilePage.BuildUpdateData | HealthApp/app/doctor/profile/page.tsx:76-86 | The body holds exactly name, phone, specialization and department, plus both passwords when both are filled in. Neither the email nor the license number is sent. |
| DoctorProfilePage.ResaveKeepsProfile | HealthApp/app/doctor/profile/page.tsx:46-55 | Saving a freshly loaded form keeps the shown fields. The patient-only fields arrive absent, so the route keeps them, and no password change is asked. (Also lines 76-86 of the same file.) |
| DoctorProfilePage.DoctorProfileState.constructor | HealthApp/app/doctor/profile/page.tsx:21-34 | The page opens with no user, an empty form, no message and not saving. |
| DoctorProfilePage.DoctorProfileState.Loaded | HealthApp/app/doctor/profile/page.tsx:45-55 | A loaded profile sets the user and the form, and nothing else. |
| DoctorProfilePage.DoctorProfileState.HandleSubmit | HealthApp/app/doctor/profile/page.tsx:64-114 | A mismatch shows its message and sends nothing. Otherwise the built body is sent. Success clears only the password inputs, and failure shows the route's error and keeps the form. Saving ends false. |
| DoctorDashboardPage.WithStatus | HealthApp/app/doctor/dashboard/page.tsx:112 | The filtered list holds each appointment with that status exactly as often as the fetched list does, and no others. (Also lines 226 of the same file.) |
| DoctorDashboardPage.CountsPartition | HealthApp/app/doctor/dashboard/page.tsx:112 | The "Pending" and "Completed" figures (`PendingCount` and `CompletedCount`, the sizes of the two `WithStatus` lists) together never exceed the number of appointments shown. (Also lines 226 of the same file.) |
| DoctorDashboardPage.CompleteRequest | HealthApp/app/doctor/dashboard/page.tsx:88-94 | The PATCH goes to the appointment's own URL with a body holding exactly one key, status, set to "completed". |
| DoctorDashboardPage.RecordPayload | HealthApp/app/doctor/dashboard/page.tsx:585-593 | No request is made when the appointment's patient is missing, since reading its id throws. Otherwise the body names the patient's id and the appointment's id, sends the symptoms as the comma-split trimmed pieces, copies the form's texts and sends no prescriptions. |
| DoctorDashboardPage.RecordFromAppointment | HealthApp/app/doctor/dashboard/page.tsx:588-593 | A record written from a populated appointment passes the create route's checks and names that appointment and its patient. It has one symptom more than the input has commas, "" becomes [""], and it has no prescriptions. |
| DoctorDashboardPage.PrescriptionPayload | HealthApp/app/doctor/dashboard/page.tsx:714-720 | The body names the selected patient and copies the form, with no medicine id. |
| DoctorDashboardPage.PrescriptionGetsFreshMedicine | HealthApp/app/doctor/dashboard/page.tsx:717-720 | Every prescription the page creates points to a freshly drawn medicine id rather than a catalogue entry (HealthApp/app/api/prescriptions/create/route.ts:27). |
| AdminHospitalsPage.Body | HealthApp/app/admin/hospitals/page.tsx:59-66 | The posted body carries the form fields as typed, with departments and facilities split at commas and trimmed, and no operating hours. |
| AdminHospitalsPage.CreatedFromForm | HealthApp/app/admin/hospitals/page.tsx:27-36 | A form with the five texts filled in passes the route's checks. The stored hospital holds the trimmed pieces (one more than the commas, so "" gives [""]), the chosen type and the default hours (HealthApp/app/api/hospitals/route.ts:42-55). (Also lines 62-66 of the same file.) |
| AdminHospitalsPage.ShownDepartments | HealthApp/app/admin/hospitals/page.tsx:230 | The table shows the first three departments, or all of them when there are fewer. |
| AdminHospitalsPage.HospitalsPageState.constructor | HealthApp/app/admin/hospitals/page.tsx:24-36 | The page opens with no hospitals, the form closed, and the initial form with type "private". |
| AdminHospitalsPage.HospitalsPageState.HandleSubmit | HealthApp/app/admin/hospitals/page.tsx:55-87 | The body built from the current form is sent. A created hospital closes the form and resets it to the initial values; a failure changes nothing. |
| AdminHospitalsPage.HospitalsPageState.Fetched | HealthApp/app/admin/hospitals/page.tsx:42-47 | A fetched list replaces the hospitals shown, and nothing else changes. |
| JsString.OrDefault | HealthApp/app/auth/login/page.tsx:34 | The fallback form of a string (`v` or `fallback`) is the value unless it is missing or empty, and then the fallback. |
| JsString.Trim | HealthApp/app/doctor/scan-qr/page.tsx:41-42 | The result is no longer than the input, neither starts nor ends with white space, keeps a string already free of white space at both ends, and adds no character. |
| JsString.TrimIdempotent | HealthApp/app/doctor/scan-qr/page.tsx:42-57 | Trimming twice is trimming once. |
| JsString.TrimSlice | HealthApp/app/doctor/scan-qr/page.tsx:57 | The trimmed string is the slice of the input between a run of leading and a run of trailing white space. |
| JsString.Split | HealthApp/app/doctor/dashboard/page.tsx:592 | A one-character split gives one more piece than the separator occurs, and no piece holds the separator. |
| JsString.SplitJoin | HealthApp/app/admin/hospitals/page.tsx:64-65 | Joining the pieces of a split with the separator gives the input back. |
| JsString.SplitAndTrim | HealthApp/app/admin/hospitals/page.tsx:64-65 | The list inputs give one trimmed piece per comma-separated part, so "" gives [""]. |
| JsString.Utf16Length | HealthApp/app/auth/register/page.tsx:34 | `length` counts UTF-16 code units: at least one and at most two per character. |

## Left out

- Token signing: the HS256 signature of `jose` is idealised as a token that records its payload, its times and the key it was signed with. Verification compares that key and the expiry, and cryptographic forgery is not modelled.
- Password: lib/password.ts is not part of this model. `hashPassword` and `verifyPassword` are idealised as a salted hash that only the original password verifies.
- Password.VerifyHashed: bcrypt ignores everything after the first 72 bytes of a password. The model accepts only the exact password, so this truncation is not captured.
- Middleware.RolePathOf: a role string that names an inherited property of a JavaScript object (such as "constructor") finds a function in `rolePaths`, not undefined. The model treats every non-role string as finding nothing.
- LoginPage.RoleRoute: the same caveat applies to the page's `roleRoutes[data.user.role]` lookup: an inherited property name finds a function, where the model finds nothing.
- RegisterRoute.Register, LoginRoute.Authenticate, AdminStaffRoute.Post and HealthCardScanRoute.Scan: every request-body field is taken to be a JSON string or number (or the array the route expects). A field of any other JSON type is not modelled, in particular an object such as `{"$gt": ""}` that MongoDB reads as a query operator when the route passes it straight into `findOne`. With such a value, the email or card-number lookups match whichever stored document the operator selects, not the one with that exact value.
- Ids: ObjectIds are strings. The exception `new ObjectId(...)` throws on a malformed id, which the routes turn into a 500, is not modelled.
- Every route's `catch` branch answering 500 is left out. The model has no database or parse failures.
- Cookie transport attributes (httpOnly, secure, sameSite) are not modelled. The cookie keeps its value, its maxAge and its path.
- MedicinesRoute.Get: the `$regex` search is modelled as a literal case-insensitive substring. Regular-expression metacharacters in the search text are not interpreted.
- JsString.IncludesIgnoringCase: `toLowerCase` is modelled as ASCII case mapping, so non-ASCII letters are not folded. The `i` flag of the two scan-page regexes folds only ASCII for these patterns, so those are exact.
- Middleware.Resolve: only the path of the resolved URL is modelled. Dot-segment removal, percent-encoding and the query string are not, since the gate's targets hold none of them.
- MedicinesRoute.Post: price and stock are the body's numbers as integers. `parseFloat`, `parseInt`, fractional prices and numeric strings are not modelled.
- PaymentsRoute.Post: the amount is an integer. `parseFloat` of a string amount and fractional amounts are not modelled.
- PaymentsProcessRoute.Process: the simulated gateway becomes the boolean `approved`. Its one-second delay and its 95% random success are not modelled.
- PatientPaymentsPage.CashPayload: the posted 50.0 is the integer 50.
- AppointmentsRoute.Post: `new Date(date)` becomes the parameter `parsedDate`. Date parsing and invalid dates are not modelled.
- Clocks, `Math.random()` suffixes, inserted ids and password salts are parameters. Their distribution and uniqueness are not modelled.
- Query.SortDesc: MongoDB leaves the order of documents with equal sort keys unspecified. The model fixes one order and proves only that the result is sorted and a permutation.
- Concurrency: every handler runs as one sequence of steps. The get-or-create race on health cards, the two non-atomic writes of the payment process route and the `Promise.all` fans of the populating routes are not interleaved.
- Aggregation: `$group` is modelled as counting per distinct value. The order of the groups MongoDB returns is left open.
- HealthCardRoute.NewCard: the QR image URL and its `encodeURIComponent` are not modelled. Only the JSON payload the image encodes is kept.
- ScanQrPage.Extract: `JSON.parse` is a parameter. Only its properties as the lemmas state them (`HonestParser`) are used, not a JSON grammar.
- ScanQrPage: the camera scanner's lifecycle (starting, clearing, timers) and the form state around the scan request are not modelled. Only the extraction, the guard before the request and the callback's double extraction are.
- Pages: React rendering, JSX, `alert`, `router.push` beyond its target, and the loading flags of pages modelled as pure functions are left out. The server's replies are parameters.
- Date-dependent figures, such as the doctor dashboard's "today's appointments" filter, are not modelled.
- The Stripe checkout component, the landing page, the patient and admin dashboards, the admin staff page, and the pharmacist's add-medicine form are not part of this model.
- `/api/auth/logout`, `/api/admin/users`, `/api/appointments/[id]`, `/api/medicines/[id]`, `app/actions/stripe` and `lib/mongodb` are not part of this model. The completing PATCH and the medicine lookups are modelled only as the requests the pages send.
- Seed scripts and the static product list carry no behaviour to model.

## Findings

| source | as written | input that shows it | evidently intended | confidence | as-written member | corrected member |
|---|---|---|---|---|---|---|
| HealthApp/middleware.ts:5,17 | "/" is a public path, and the public test is `startsWith`, so every path is public. The cookie and role checks at lines 21-41 never run. | A signed-out request for "/admin/dashboard" proceeds. | "/" is public only as itself (exact match), and every other path goes through the cookie and role checks. | high; not executed | Middleware.RootPrefixCounterexample | Middleware.IntendedGate |
