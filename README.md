# MedicPlannerAI booking rules in Dafny

This project models the rule-bearing core of the MedicPlannerAI appointment
planner and proves properties of it. The parts modelled are:

- **Appointment store** (`appointment_routes.dfy`, over `appointment_model.dfy` and `validation.dfy`).
  - The Express `/api/appointments` routes list, book, view, update and delete documents in a class holding the appointment collection.
  - Booking forces the patient to be the requester, checks that the doctor exists, and rejects a booking that overlaps a scheduled appointment of the same doctor on the same date.
  - Start and end times are compared with the store's string order, as the code does. For zero-padded times this is clock order. With the unpadded hours the time pattern admits, it is not, and a clock overlap slips through.
  - Any doctor may view, update or delete any appointment, and an update merges the whole body without a conflict check. The model does what the code does, and `UpdateMayDoubleBook` shows the consequence.
- **Appointment schema** (`appointment_model.dfy`): required paths, the status enumeration and its default, length limits, the time, phone and email patterns, the trim and lowercase setters, and the `duration` virtual.
- **Request validation** (`validation.dfy`): the express-validator rule chains and `handleValidationErrors`. The library predicates `isEmail`, `isMongoId` and `isISO8601` are parameters.
- **Accounts**:
  - `auth_routes.dfy`: registration uniqueness, the login check order with an abstract password matcher, and logout.
  - `auth_context.dfy`: the client's local account mock over two storage keys.
- **Questionnaire** (`use_forms.dfy`, `patient_dashboard.dfy`):
  - the `optionsMap` augmentation and the specialization list;
  - `getAnswerValue` and the dashboard's inline option mapping, including an input on which they disagree;
  - typed input, the form completeness check and the end-time helper;
  - the dashboard state on a specialization change, an answer and a submission.
- **Client appointment list and route guard** (`use_appointments.dfy`, `protected_route.dfy`).
- **Risk label** (`prediction.dfy`): the classifier service's model lookup and its Low/Medium/High threshold on a real number.

`support.dfy` holds shared pieces:

- an option type;
- JavaScript's `trim` and an ASCII `toLowerCase`;
- the code-point string order, proved a strict total order.

That order is the store's binary comparison of string fields, in queries and in `sort`.

Clocks, generated ids, the user collection, the network responses and
JavaScript's `Number(text)` are parameters of the operations that use them.

## Model

| member | source | states |
|---|---|---|
| Support.TrimShape | frontend/server/src/middleware/validation.js:30-33 | `trim` keeps an infix of the text with no white space at either end |
| Support.TrimIdempotent | frontend/server/src/middleware/validation.js:30-33 | trimming twice is trimming once |
| Support.StrLessTransitive | frontend/server/src/routes/appointments.js:56 | the string order used for `startTime` comparisons and sorting is transitive |
| Support.StrLessTotal | frontend/server/src/routes/appointments.js:56 | two different strings are always ordered one way or the other |
| Support.StrLessAsymmetric | frontend/server/src/routes/appointments.js:56 | the string order is asymmetric |
| Validation.TimePatternExactly | frontend/server/src/middleware/validation.js:94-100 | the time pattern accepts exactly H:MM or HH:MM with hour 0–23 (leading zero optional) and minute 00–59 |
| Validation.TimePatternExamples | frontend/server/src/middleware/validation.js:94-100 | '09:00', '9:30', '23:59' pass; '24:00', '9:5', '12:60' fail |
| Validation.ClockTextAccepted | frontend/server/src/middleware/validation.js:94-100 | every clock time h:mm written padded or unpadded passes the pattern and reads back as 60h+m minutes |
| Validation.PaddedOrderIsClockOrder | frontend/server/src/routes/appointments.js:113-123 | for zero-padded times the store's string order is clock order |
| Validation.UnpaddedOrderDiffers | frontend/server/src/routes/appointments.js:113-123 | '10:00' sorts before '9:30' although it is later on the clock |
| Validation.PhonePatternExactly | frontend/server/src/middleware/validation.js:77-79 | the phone pattern is an optional '+', a digit 1–9, then 0–15 digits |
| Validation.HandleValidationErrors | frontend/server/src/middleware/validation.js:4-17 | the handler is reached iff there are no errors; otherwise 400 'Validation failed' with the errors |
| Validation.CollectMembers | frontend/server/src/middleware/validation.js:5-13 | an error entry exists exactly for each failed rule, with its field and message |
| Validation.CollectEmpty | frontend/server/src/middleware/validation.js:5-6 | there are no errors iff every rule passed |
| Validation.OneEntryPerFailure | frontend/server/src/middleware/validation.js:9-13 | with one rule per field, the error list has one entry per failed field |
| Validation.RegistrationRules | frontend/server/src/middleware/validation.js:20-45 | registration proceeds iff the email is valid, the password has ≥ 6 characters, the trimmed name has 2–100, the role is patient or doctor, and a given phone has 10–15 |
| Validation.LoginRules | frontend/server/src/middleware/validation.js:48-59 | login proceeds iff the email is valid and the password is present and non-empty |
| Validation.CreationRules | frontend/server/src/middleware/validation.js:62-114 | a booking proceeds iff all eleven field rules hold (ids, names 2–100, email, phone and time patterns, date, trimmed reason 5–500, symptoms ≤ 1000 when given) |
| Validation.PatientRules | frontend/server/src/middleware/validation.js:63-79 | the patient rules pass iff the patient id, trimmed name, email and phone are valid |
| Validation.SlotRules | frontend/server/src/middleware/validation.js:81-100 | the slot rules pass iff the doctor id, trimmed doctor name and date are valid and both times are present and match the pattern |
| Validation.ReasonRules | frontend/server/src/middleware/validation.js:102-111 | the reason rules pass iff the trimmed reason has 5–500 characters and given symptoms ≤ 1000 |
| Validation.UpdateRules | frontend/server/src/middleware/validation.js:117-142 | every update field is optional; present ones are in the status enumeration or within 2000/1000/2000 characters |
| AppointmentModel.ParseStatus | frontend/server/src/models/Appointment.js:53-57 | exactly the four status names are admitted |
| AppointmentModel.StatusNamesRoundTrip | frontend/server/src/models/Appointment.js:53-57 | status names and statuses correspond one to one |
| AppointmentModel.Overlay | frontend/server/src/routes/appointments.js:94-99 | object spread: every path the top object sets wins |
| AppointmentModel.Cast | frontend/server/src/models/Appointment.js:3-90 | a document is built iff every validator holds after the setters; it is valid, has the given id and timestamps, status defaults to scheduled and isActive to true, and every other path is the set-up input |
| AppointmentModel.CastRoundTrip | frontend/server/src/models/Appointment.js:3-90 | a stored document cast again from its own paths is unchanged |
| AppointmentModel.RequiredPaths | frontend/server/src/models/Appointment.js:4-63 | a missing patientId, patientName, patientEmail, patientPhone, doctorId, doctorName, date, startTime, endTime or reason rejects the document |
| AppointmentModel.StoredLengthLimits | frontend/server/src/models/Appointment.js:9-83 | a stored document keeps names ≤ 100, reason ≤ 500, symptoms ≤ 1000, notes ≤ 2000, diagnosis ≤ 1000, prescription ≤ 2000, and the time and phone patterns |
| AppointmentModel.NormalizeIdempotent | frontend/server/src/models/Appointment.js:9-83 | the trim and lowercase setters applied twice change nothing more |
| AppointmentModel.EmailSetterIdempotent | frontend/server/src/models/Appointment.js:15-21 | lowercase then trim of the email is idempotent |
| AppointmentModel.LowerOfTrimmedLower | frontend/server/src/models/Appointment.js:15-21 | a lower-cased and trimmed email has no capitals left |
| AppointmentModel.EmailFromParts | frontend/server/src/models/Appointment.js:20 | a word, '@', a word, '.', and a two- or three-character word always match the email pattern |
| AppointmentModel.NoDotRejected | frontend/server/src/models/Appointment.js:20 | a text with no '.' never matches the email pattern |
| AppointmentModel.EmailPatternAccepts | frontend/server/src/models/Appointment.js:20 | 'john@example.com' matches the email pattern |
| AppointmentModel.EmailPatternRejects | frontend/server/src/models/Appointment.js:20 | 'john@example' does not match (no final dot group) |
| AppointmentModel.Duration | frontend/server/src/models/Appointment.js:98-102 | for zero-padded times the duration lies strictly between −1440 and 1440 minutes |
| AppointmentModel.DurationSign | frontend/server/src/models/Appointment.js:98-102 | the duration is positive iff the end is after the start, zero iff they are equal, and otherwise negative, which nothing prevents |
| AuthRoutes.FindByEmail | frontend/server/src/routes/auth.js:24 | `findOne({ email })` is the first user with that email, or none |
| AuthRoutes.FindById | frontend/server/src/routes/appointments.js:102 | `findById` yields a user with that id, or none when no user has it or no id is given |
| AuthRoutes.StoredPhone | frontend/server/src/routes/auth.js:37 | an empty phone is stored as absent, any other is kept |
| AuthRoutes.Login | frontend/server/src/routes/auth.js:69-111 | a token is issued iff the user exists, is active and the password matches; unknown email → 401 'Invalid credentials', inactive → 401 'Account is deactivated', active with a wrong password → 401 'Invalid credentials'; the response user has no password |
| AuthRoutes.DeactivatedBeforePassword | frontend/server/src/routes/auth.js:81-94 | a deactivated account is refused whatever the password and the matcher |
| AuthRoutes.UserStore.Register | frontend/server/src/routes/auth.js:19-57 | a taken email gives 400 'User already exists with this email' and adds no user; otherwise exactly one active user is appended and 201 returns it with its token |
| AuthRoutes.UserStore.Logout | frontend/server/src/routes/auth.js:147-153 | logout only acknowledges and changes no state |
| AuthRoutes.RegisterKeepsEmailsUnique | frontend/server/src/routes/auth.js:24-40 | registering keeps emails unique |
| AppointmentRoutes.IndexOf | frontend/server/src/routes/appointments.js:176-182 | `findById` finds the document with the id, or reports that none has it |
| AppointmentRoutes.FindConflict | frontend/server/src/routes/appointments.js:113-123 | the conflict query finds a document iff a scheduled one of the same doctor and date has start < new end and end > new start |
| AppointmentRoutes.AllPopulated | frontend/server/src/routes/appointments.js:53-79 | the response mapping succeeds iff every listed document's patient and doctor resolve |
| AppointmentRoutes.Select | frontend/server/src/routes/appointments.js:24-51 | the query keeps exactly the owner's documents with an equal status (when given) and a date within the inclusive range, each as often as stored |
| AppointmentRoutes.Insert | frontend/server/src/routes/appointments.js:56 | inserting into a sorted listing keeps it sorted and adds exactly that document |
| AppointmentRoutes.SortForList | frontend/server/src/routes/appointments.js:56 | the listing is a permutation ordered by date descending, then startTime ascending |
| AppointmentRoutes.ListBeforeTotal | frontend/server/src/routes/appointments.js:56 | any two documents are ordered by the listing order |
| AppointmentRoutes.ListBeforeTransitive | frontend/server/src/routes/appointments.js:56 | the listing order is transitive |
| AppointmentRoutes.ListingContents | frontend/server/src/routes/appointments.js:24-57 | the listing holds exactly the selected documents, each as often as stored, sorted |
| AppointmentRoutes.ListingIsOwn | frontend/server/src/routes/appointments.js:26-35 | a patient lists only its own appointments, a doctor only its own |
| AppointmentRoutes.BookingFields | frontend/server/src/routes/appointments.js:94-110 | the booked patient id, name and email are the requester's and the doctor name the doctor's, whatever the body held; the slot paths come from the body |
| AppointmentRoutes.AppointmentStore.List | frontend/server/src/routes/appointments.js:12-87 | another userId → 403; role other than patient/doctor → 403 'Invalid user role'; otherwise exactly the listing when every reference resolves, and 500 iff one dangles |
| AppointmentRoutes.AppointmentStore.Get | frontend/server/src/routes/appointments.js:274-324 | 404 iff the id is missing; shown iff a doctor or the owning patient asks and the references resolve; 500 iff a patient's own reference dangles or an allowed view has a dangling reference; every other refusal is 403 |
| AppointmentRoutes.AppointmentStore.Create | frontend/server/src/routes/appointments.js:92-169 | on any valid store: non-patient → 403; unknown or non-doctor → 400 'Invalid doctor selected'; conflict → 400 'Time slot is already booked'; these leave the store unchanged; a success appends exactly one record; a store without double booking stays without |
| AppointmentRoutes.AppointmentStore.Update | frontend/server/src/routes/appointments.js:174-233 | missing → 404, not doctor or owner → 403, store unchanged; otherwise the merged, validated document replaces the old one in place |
| AppointmentRoutes.AppointmentStore.Delete | frontend/server/src/routes/appointments.js:238-269 | on any valid store: missing → 404, not doctor or owner → 403, store unchanged; otherwise exactly that record is removed and no record with the id remains; a store without double booking stays without |
| AppointmentRoutes.BookingKeepsNoDoubleBooking | frontend/server/src/routes/appointments.js:113-132 | a booking the conflict query lets through keeps "no two scheduled appointments of a doctor on a date overlap" |
| AppointmentRoutes.RemovalKeepsNoDoubleBooking | frontend/server/src/routes/appointments.js:258 | deleting keeps the booking invariant |
| AppointmentRoutes.RemovalKeepsUniqueIds | frontend/server/src/routes/appointments.js:258 | deleting keeps ids unique and removes the id |
| AppointmentRoutes.OnlyScheduledBlocks | frontend/server/src/routes/appointments.js:122 | cancelled, completed and no-show records never block a booking |
| AppointmentRoutes.SlotExamples | frontend/server/src/routes/appointments.js:116-121 | 09:30–10:00 and 08:30–09:00 do not conflict with 09:00–09:30; 09:15–09:45 and 08:00–11:00 do |
| AppointmentRoutes.UnpaddedOverlapMissed | frontend/server/src/routes/appointments.js:116-121 | 9:30–10:00 is let through beside 9:00–9:45 although they overlap on the clock |
| AppointmentRoutes.UpdateMayDoubleBook | frontend/server/src/routes/appointments.js:195-198 | reopening a cancelled appointment through an update can break the booking invariant |
| AppointmentRoutes.NormalizeOverlay | frontend/server/src/routes/appointments.js:197 | the setters commute with the spread of the body |
| AppointmentRoutes.UpdateMerge | frontend/server/src/routes/appointments.js:195-198 | an update sets exactly the body's paths (set up), keeps every other path, the id and createdAt, and sets updatedAt |
| AppointmentRoutes.BookingRecord | frontend/server/src/routes/appointments.js:94-132 | the stored booking has the requester as patient, the doctor's name, the requested slot, the status default and both timestamps |
| UseForms.AugmentFormsShape | frontend/src/hooks/useForms.ts:36-47 | optionsMap is added iff hasOptions holds and both arrays exist with equal length; entry i is {options[i], optionsValue[i]}; everything else is unchanged |
| UseForms.SpecsElements | frontend/src/hooks/useForms.ts:50 | the specializations are exactly the non-empty names, each once |
| UseForms.SpecsOrder | frontend/src/hooks/useForms.ts:50 | the specializations appear in first-occurrence order |
| UseForms.FormsHook.Load | frontend/src/hooks/useForms.ts:29-67 | success stores the augmented forms and their specializations, failure empties both; loading ends either way |
| UseForms.FindIndex | frontend/src/hooks/useForms.ts:95 | `findIndex` is the first matching position, or -1 when none matches |
| UseForms.FoldedComesFirst | frontend/src/hooks/useForms.ts:86-89 | the first case-insensitive match comes no later than the first exact one |
| UseForms.MapAnswer | frontend/src/hooks/useForms.ts:85-91 | with an optionsMap, the first exact label wins, a case-insensitive one counts only without any exact one, no match gives null |
| UseForms.ArrayAnswer | frontend/src/hooks/useForms.ts:94-104 | without an optionsMap, the first exact label within optionsValue gives its value; otherwise the first case-insensitive label gives optionsValue at its position, or null beyond that array; no case-insensitive match gives null |
| UseForms.NoStructureNoAnswer | frontend/src/hooks/useForms.ts:83-107 | options offered with neither structure gives null |
| UseForms.TypedAnswer | frontend/src/hooks/useForms.ts:110-123 | number: null exactly on NaN; boolean: trimmed lower-case 'true'/'1' → true, 'false'/'0' → false, else null; any other type: the text unchanged |
| UseForms.AugmentPreservesAnswers | frontend/src/hooks/useForms.ts:39-45 | adding the optionsMap never changes the answer for any text |
| PatientDashboard.CalculateEndTime | frontend/src/pages/PatientDashboard.tsx:27-38 | the end time is zero-padded HH:MM equal to (start minutes + duration) mod 1440 |
| PatientDashboard.EndTimeComposes | frontend/src/pages/PatientDashboard.tsx:27-38 | adding two durations in turn equals adding their sum |
| PatientDashboard.ValidateForm | frontend/src/pages/PatientDashboard.tsx:56-68 | no specialization → null; no form → the select message; otherwise the first unanswered question decides 'fill in' or 'valid number'; null iff all are answered |
| PatientDashboard.RawLabelHasNoAnswer | frontend/src/pages/PatientDashboard.tsx:225-240 | when the inline mapping stores the raw label, getAnswerValue also gives null |
| PatientDashboard.InlineAgreesWhenLabelsDistinct | frontend/src/pages/PatientDashboard.tsx:225-240 | when no two map labels are equal ignoring case, the inline mapping stores what getAnswerValue finds |
| PatientDashboard.InlineDiffersFromLookup | frontend/src/pages/PatientDashboard.tsx:225-240 | with labels 'yes', 'Yes', choosing 'Yes' stores 1 while getAnswerValue gives 2 |
| PatientDashboard.TypedInputChecks | frontend/src/pages/PatientDashboard.tsx:257-263 | '' stays '' and counts as missing; other number input is Number(v) and is invalid exactly on NaN; a valid one is what getAnswerValue gives |
| PatientDashboard.FindDoctor | frontend/src/pages/PatientDashboard.tsx:90 | `find` is the first doctor with the id, or none |
| PatientDashboard.SelectDoctor | frontend/src/pages/PatientDashboard.tsx:78-90 | no doctors → none; otherwise the first doctor with the selected id, or doctors[0] when none has it |
| PatientDashboard.FindForm | frontend/src/pages/PatientDashboard.tsx:186 | the first form of the specialization, or null when none has it |
| PatientDashboard.Dashboard.ChangeSpecialization | frontend/src/pages/PatientDashboard.tsx:179-188 | sets the specialization and doctor filter, clears answers and the selected doctor, picks the matching form or null |
| PatientDashboard.Dashboard.ChooseOption | frontend/src/pages/PatientDashboard.tsx:223-242 | the option select stores the inline mapping under the question id and changes nothing else |
| PatientDashboard.Dashboard.EnterText | frontend/src/pages/PatientDashboard.tsx:257-263 | the input stores the typed value under the question id and changes nothing else |
| PatientDashboard.Dashboard.Submit | frontend/src/pages/PatientDashboard.tsx:70-130 | no doctors aborts; no form or a failed request is caught; these change nothing; otherwise the chosen doctor and model are requested and the form resets |
| UseAppointments.MergeFields | frontend/src/hooks/useAppointments.ts:91 | for each of the eighteen fields, the merge takes the update's value when it carries one and keeps the record's otherwise; updatedAt is always refreshed |
| UseAppointments.MergeIdempotent | frontend/src/hooks/useAppointments.ts:91 | merging the same update twice equals merging it once |
| UseAppointments.KeepOwned | frontend/src/hooks/useAppointments.ts:58-61 | the filter keeps exactly the records whose owner field equals the id, each as often as in the input |
| UseAppointments.AppointmentsHook.Fetch | frontend/src/hooks/useAppointments.ts:46-69 | a patient or doctor with an id sees the seed list filtered on its own owner field, each record as often as seeded; without a role or id, the seed list itself; loading ends |
| UseAppointments.AppointmentsHook.CreateAppointment | frontend/src/hooks/useAppointments.ts:71-84 | exactly one stamped record is appended at the end; earlier records are unchanged |
| UseAppointments.AppointmentsHook.UpdateAppointment | frontend/src/hooks/useAppointments.ts:86-93 | length is preserved; records with the id are merged, all others are identical |
| UseAppointments.UnknownIdChangesNothing | frontend/src/hooks/useAppointments.ts:90-92 | an update for an unknown id changes no record |
| UseAppointments.UpdatedListChanges | frontend/src/hooks/useAppointments.ts:90-92 | only records with the id change, each to its merge with updatedAt refreshed |
| AuthContext.FindUser | frontend/src/contexts/AuthContext.tsx:27 | the first stored user with the email, or none when no stored user has it |
| AuthContext.AuthProvider.Mount | frontend/src/contexts/AuthContext.tsx:12-19 | the current user becomes the stored user when one exists; loading ends |
| AuthContext.AuthProvider.Login | frontend/src/contexts/AuthContext.tsx:21-50 | unknown email throws 'Invalid credentials' and changes no user; a known one signs in whatever the password and is stored |
| AuthContext.AuthProvider.Signup | frontend/src/contexts/AuthContext.tsx:52-91 | a taken email throws 'User already exists' and changes nothing; otherwise one user is appended and becomes the current and stored user; unique emails stay unique |
| AuthContext.AuthProvider.Logout | frontend/src/contexts/AuthContext.tsx:93-100 | the current and stored user become null; the user list is untouched |
| AuthContext.SignupTakesEmail | frontend/src/contexts/AuthContext.tsx:58-71 | after a sign-up its email is found, so a second sign-up with it fails |
| AuthContext.SignupThenLogin | frontend/src/contexts/AuthContext.tsx:21-71 | after a sign-up, login with its email finds the new user, and login with any other email finds whom it found before |
| ProtectedRoute.Home | frontend/src/components/ProtectedRoute.tsx:39 | doctors go to '/doctor', everyone else to '/patient' |
| ProtectedRoute.Decide | frontend/src/components/ProtectedRoute.tsx:11-44 | spinner iff loading; no user → redirect to redirectTo (default '/auth') carrying the location; children iff a user whose role is allowed (or no list); otherwise redirect home |
| ProtectedRoute.WrongRoleGoesHome | frontend/src/components/ProtectedRoute.tsx:37-41 | a doctor or patient at the other role's page lands on its own dashboard, which renders |
| Prediction.RiskLabel | backend/api/gateway/classifierAPI/app/modules/prediction/service.py:19-26 | x ≤ 0.333 → 'Low', x > 0.666 → 'High', otherwise 'Medium' |
| Prediction.RiskLabelMonotone | backend/api/gateway/classifierAPI/app/modules/prediction/service.py:19-27 | the label never decreases as x grows |
| Prediction.GetPredictionResult | backend/api/gateway/classifierAPI/app/modules/prediction/service.py:6-27 | unknown model → 404 'Model not found!'; a raising predict → 500 with its text; an empty output escapes uncaught; a result iff predict returns a number; then exactly {"Status": label of the first number} |
| Prediction.UnknownModelBeforePredict | backend/api/gateway/classifierAPI/app/modules/prediction/service.py:7-10 | an unknown model id is answered whatever predict would do |
| Prediction.ResultShape | backend/api/gateway/classifierAPI/app/modules/prediction/service.py:27 | a result has the single key "Status" and one of the three labels |

## Left out

- HTTP plumbing is not modelled. This covers Express routing, the success `message` texts, the shapes of populated sub-documents in responses, and the server-error branch for failures other than those modelled.
- JWT signing and verification are left out. A token only names its user, and the `auth` middleware, `GET /verify` and `requireRole` are not modelled. middleware/auth.js is not part of this model; a non-patient booking is assumed to get the 403 `RoleRequired`.
- User.js is not part of this model. Password hashing and `comparePassword` become a hash taken as given and an abstract matcher, and a new user is taken to be active.
- express-validator's `isEmail`, `isMongoId`, `isISO8601` and `normalizeEmail` are parameters or left out. Handlers see the body as the chains left it, and the normalized email text is not computed. The `value` field of an error entry is not modelled.
- Ids are opaque strings, and dates are integers (`new Date(...)` parsing is not modelled). A malformed id or date that the store would reject with a cast error (500) is treated as simply not found.
- `findByIdAndUpdate` with `runValidators` checks only the updated paths. The model validates the whole merged document, which agrees for documents that were valid before.
- The read-then-write race between the conflict query and `save` is not modelled, nor the store's own timestamping (the clock is a parameter).
- AppointmentRoutes.SortForList: records with equal date and startTime come in the insertion sort's order. The store leaves their order unspecified for `sort({ date: -1, startTime: 1 })`, and nothing proved about the listing depends on it.
- String lengths count Dafny characters, not UTF-16 code units. `toLowerCase` is ASCII only. JavaScript's own `<` on strings compares UTF-16 code units, which differs from `Support.StrLess` for characters beyond U+FFFF. No modelled operation uses it.
- AppointmentRoutes.AppointmentStore.Create: modelled as the handler behind the validation gate, not composed with it. The creation chain is proved on the request body (`Validation.CreationRules`), while the handler takes document paths. So a body the chain rejects with 400 still reaches the handler model, which answers as the handler itself would: a reason of 'abc' is booked.
- AppointmentRoutes.AppointmentStore.Update: modelled the same way, behind the update chain (`Validation.UpdateRules`) but not composed with it. A status of 'foo', which the chain rejects with 400, reaches the handler model and fails the schema with 500.
- AppointmentModel.Duration: defined only for zero-padded times. For an unpadded hour the source's `new Date('2000-01-01T9:30:00')` is an invalid date and the duration is NaN.
- AppointmentModel.Overlay: its contract names only the paths the conflict and listing rules read. NormalizeOverlay and UpdateMerge state the whole spread.
- PatientDashboard.CalculateEndTime: requires a start the time pattern accepts and a whole number of minutes. Other starts are not modelled: `setHours` carries out-of-range parts over ("25:00" starts at 01:00, "12:75" at 13:15), and only parts that are not numbers give 'NaN:NaN'. Fractional durations and local-time effects such as daylight saving are not modelled either.
- The dashboard's displayed option label, its toasts, `window.location.reload()` and the request payloads are not modelled; a submission's three requests are one success flag. `handleSubmit` does not call `validateForm`, and the model keeps that.
- useForms' toast and console logging are left out. A response without `forms` counts as a failed load.
- useAppointments' seed list is a parameter of `Fetch`, and the 500 ms delay is left out. Dates are kept as text. An update object carrying an explicit `undefined` is not distinguished from a missing field.
- AuthContext's toasts are left out, and so is the loss of `Date` types through JSON storage. Passwords are neither stored nor checked, as in the source.
- Prediction.RiskLabel: thresholds are compared on exact reals, not on binary floating point. The logging call is left out. A model that returns no numbers makes `tolist()[0]` raise outside the handler; the model answers `Uncaught` for it.
- Prediction.GetPredictionResult: features are a row of reals, narrower than the form's list of floats, ints and strings (backend/api/gateway/classifierAPI/app/modules/prediction/model.py:6). A NaN prediction cannot be represented: it fails both comparisons in Python and so would be labelled 'Medium'. Since `predict` is a parameter, nothing else depends on this.
