# Wineacademy seminar booking — a Dafny model

This project models the core of the Wineacademy booking system. Customers
book a date (*Termin*) of a wine seminar (*Seminar*), one place per
participant (*Teilnehmer*). They may redeem a voucher (*Gutschein*) and pay
by invoice or with PayPal. The backend is a Strapi application. The model
covers its public booking, voucher-check and PayPal controllers, the
lifecycle hooks of the *Buchung* and *Termin* content types, and the seed
data that the bootstrap writes. The frontend is a Next.js application. The
model covers its API helpers, the seminar list page, the checkout page and
the checkout client's state machine.

The Dafny modules follow the source files:

- `Common` holds the JavaScript values: `undefined`, `null`, numbers with
  `NaN`, and strings, together with `Number()`, `trim`, `||`, `??` and
  string comparison.
- `Money` holds money as integer cents, with round-half-up division in
  place of `Math.round(x * 100) / 100`, euro formatting, and the PayPal
  amount strings.
- `Entities` is the Strapi store, a class `Db` whose fields are the
  collections that the controllers read and write.
- `Api` is the frontend's URL helpers.
- `GutscheinController`, `BuchungController` and `PaypalController` are the
  three custom controllers.
- `BuchungLifecycles` and `TerminLifecycles` are the content-type hooks.
- `CheckoutClient` (class `Checkout`), `CheckoutPage` and `SeminarePage`
  are the frontend.
- `Seed` is the bootstrap's seed data, including the slug function.

Operations that change the store are methods on `Db`. Each is proved
against a function that computes its plan: the rows it creates, or the
error it answers with. What the source promises is proved about those
functions as lemmas.

The following are parameters of the operations:

- the current date, as an ISO string;
- the ids the store assigns;
- the environment variables;
- every reply of an outside service: the PayPal token, order, capture and
  webhook-verification calls, and the backend's replies as seen by the
  frontend;
- whether a store call throws, and which row the database returns when a
  query leaves the order open (the voucher lookup's `$or`).

Two places take the code as written and as evidently intended side by
side, as a parameter: the way `publicCreate` hands the participants to the
insert (`ParticipantsAs`), and the version of the booking's update hook
that the webhook's status update passes through (`UpdateHookVersion`).
Both versions are proved about; see "## Findings".

## Model

| member | source | states |
|---|---|---|
| Common.Or | backend/src/api/gutschein/controllers/gutschein.ts:13 | `a \|\| b` is a when a is truthy and b otherwise |
| Common.Coalesce | backend/src/api/buchung/controllers/buchung.ts:51 | `a ?? b` is b exactly for undefined or null, and a otherwise |
| Common.OrStr | backend/src/api/gutschein/controllers/gutschein.ts:14 | `a \|\| b` on optional strings: a when present and non-empty, else b |
| Common.TrimStart | backend/src/api/gutschein/controllers/gutschein.ts:14 | no whitespace is left at the start, and only whitespace was removed |
| Common.TrimEnd | backend/src/api/gutschein/controllers/gutschein.ts:14 | no whitespace is left at the end, and only whitespace was removed |
| Common.TrimStartSuffix | backend/src/api/gutschein/controllers/gutschein.ts:14 | the trimmed text is a suffix of the input |
| Common.TrimEndPrefix | backend/src/api/gutschein/controllers/gutschein.ts:14 | the trimmed text is a prefix of the input |
| Common.BlankIffAllSpace | backend/src/api/buchung/content-types/buchung/lifecycles.ts:22 | a string trims to nothing exactly when all its characters are whitespace |
| Common.TrimNoSpace | backend/src/api/gutschein/controllers/gutschein.ts:14 | a string without whitespace is its own trim |
| Common.Lower | backend/src/api/buchung/controllers/buchung.ts:123 | toLowerCase maps every ASCII letter to lower case and keeps the length |
| Common.Upper | backend/src/api/buchung/controllers/buchung.ts:122 | toUpperCase maps every ASCII letter to upper case and keeps the length |
| Api.NumberValue | frontend/app/checkout/CheckoutClient.tsx:79-80 | a value exactly for a JavaScript number, and then that number |
| Common.UpperFixed | backend/src/api/buchung/controllers/buchung.ts:270-271 | text without lower-case letters, such as 'COMPLETED' or 'EUR', is its own upper case |
| Common.LexLeTotal | backend/src/api/termin/content-types/termin/lifecycles.ts:19 | any two keys are ordered one way or the other |
| Common.LexLeTrans | backend/src/api/termin/content-types/termin/lifecycles.ts:19 | the key order is transitive |
| Common.LexLeAntisym | backend/src/api/termin/content-types/termin/lifecycles.ts:19 | keys ordered both ways are equal |
| Common.Split | backend/src/api/termin/content-types/termin/lifecycles.ts:24 | split gives at least one part and no part contains the separator |
| Common.SplitNoSep | backend/src/api/termin/content-types/termin/lifecycles.ts:24 | a string without the separator splits into itself alone |
| Common.SplitCons | backend/src/api/buchung/controllers/buchung.ts:84 | a part without the separator followed by the separator splits off as the first part |
| Common.SplitThree | backend/src/api/termin/content-types/termin/lifecycles.ts:24 | three parts joined by the separator split back into those three parts |
| Common.DigitChar | frontend/app/checkout/CheckoutClient.tsx:588 | a digit character stands for its digit |
| Common.NatToString | frontend/app/checkout/CheckoutClient.tsx:117-118 | String of a natural number is decimal digits without a leading zero |
| Common.IntToString | frontend/app/checkout/CheckoutClient.tsx:117-118 | String of an integer is never empty |
| Common.ParseNumber | backend/src/api/gutschein/controllers/gutschein.ts:12 | Number of a blank string is 0 |
| Common.DigitValueOfNatToString | frontend/app/checkout/CheckoutClient.tsx:118 | the digits of a natural number read back as that number |
| Common.ParseIntToString | backend/src/api/buchung/controllers/buchung.ts:84-86 | Number(String(i)) is i for every integer |
| Money.RoundDiv | backend/src/api/gutschein/controllers/gutschein.ts:3-5 | the rounded quotient is within half a unit of the exact quotient, halves going up, as Math.round does |
| Money.RoundDivUnique | backend/src/api/gutschein/controllers/gutschein.ts:3-5 | the nearest integer with halves up is unique |
| Money.RoundDivExact | backend/src/api/gutschein/controllers/gutschein.ts:3-5 | rounding an amount that is already whole cents changes nothing |
| Money.RoundDivMono | backend/src/api/gutschein/controllers/gutschein.ts:3-5 | rounding keeps the order of its arguments |
| Money.RoundDivBounds | backend/src/api/gutschein/controllers/gutschein.ts:58 | a share of a non-negative amount among at least one seat rounds to between 0 and the amount |
| Money.PercentOfBounds | backend/src/api/gutschein/controllers/gutschein.ts:53 | a percentage between 0 and 100 of a non-negative total rounds to between 0 and the total, and 100 % to the whole total |
| Money.NetOfGrossBounds | frontend/app/checkout/CheckoutClient.tsx:88 | the net amount is the nearest cent to gross / 1.19 and lies between 0 and the gross amount |
| Money.NumMul | backend/src/api/buchung/controllers/buchung.ts:145 | a product is a number exactly when both factors are; NaN propagates |
| Money.NumSub | backend/src/api/buchung/controllers/buchung.ts:285 | a difference is a number exactly when both operands are |
| Money.NumMax | backend/src/api/gutschein/controllers/gutschein.ts:57 | Math.max: NaN when either argument is NaN, else the larger of the two |
| Money.NumMin | backend/src/api/buchung/controllers/buchung.ts:146 | Math.min: NaN when either argument is NaN, else the smaller of the two |
| Money.AtLeastOne | backend/src/api/gutschein/controllers/gutschein.ts:13 | Math.max(1, Number(x \|\| 1)): 1 for a falsy value, at least 1 for a number, NaN for a value that is not a number |
| Money.ParseAmount | backend/src/api/buchung/controllers/buchung.ts:286 | Number of a blank string is 0 |
| Money.WithinOneCentOfCents | backend/src/api/buchung/controllers/buchung.ts:287 | an amount given to the cent is within the tolerance exactly when it differs from the expected cents by at most one |
| Money.ParseCentsNumeral | frontend/app/checkout/CheckoutClient.tsx:588 | the two-decimal string the client sends for an amount reads back as exactly that amount |
| Money.ParseUnsignedNumeral | backend/src/api/buchung/controllers/buchung.ts:286 | a numeral without whitespace that starts with a digit is read without a sign |
| Money.ParseUnsignedPoint | backend/src/api/buchung/controllers/buchung.ts:286 | digits, a point and digits read as the digits' value scaled by the number of decimals |
| Money.IndexOf | backend/src/api/buchung/controllers/buchung.ts:286 | the first position of the character, or the length when it does not occur |
| Money.IndexOfFirst | backend/src/api/buchung/controllers/buchung.ts:286 | a position with the character and none before it is the one found |
| Entities.ColumnNumber | backend/src/api/gutschein/controllers/gutschein.ts:18-20 | Number of a stored decimal: the stored value, and 0 for an empty (null) column |
| Api.ApiSuffixLength | frontend/lib/api.ts:6 | the length matched by `\/?api\/?$` is 0 or between 3 and 5, never more than the string |
| Api.StripApiSuffix | frontend/lib/api.ts:5-7 | the result is a prefix of the input |
| Api.StripApiSuffixMeaning | frontend/lib/api.ts:5-7 | what is removed is empty or one of '/api/', '/api', 'api/', 'api', and no api suffix at the end is longer than what was removed (the leftmost, longest match) |
| Api.RemovedIsApiSuffix | frontend/lib/api.ts:6 | the matched tail is one of the four api suffixes |
| Api.ApiSuffixBound | frontend/lib/api.ts:6 | any of the four suffixes at the end is at most as long as the match |
| Api.StripApiSuffixRoundTrip | frontend/lib/api.ts:5-7 | appending '/api' or '/api/' to any base and stripping gives the base back |
| Api.ServerBase | frontend/lib/api.ts:2 | the internal URL when set and non-empty, else the public URL, else 'http://localhost:1337' |
| Api.MediaBase | frontend/lib/api.ts:9-14 | the assets URL when non-empty, else the API base with its api suffix stripped |
| Api.MediaBaseDefaults | frontend/lib/api.ts:2-14 | without variables the media base is the default host; a base 'host/api' serves media from 'host' |
| Api.NoTrailingSlash | frontend/lib/api.ts:17 | exactly one trailing '/' is removed, nothing else changes |
| Api.ApiBase | frontend/lib/api.ts:17-19 | the result always ends in '/api' (letters in any case) |
| Api.Slashed | frontend/lib/api.ts:20 | the path always starts with '/', a leading '/' is kept and a missing one added |
| Api.JoinUrl | frontend/lib/api.ts:16-22 | the URL is the base without trailing '/', then at most one '/api', then the slashed path |
| Api.ApiBaseNeverDoubles | frontend/lib/api.ts:17-19 | a base already ending in '/api' is kept, one without gets '/api' once, and taking the api base is idempotent |
| Api.JoinUrlLeadingSlash | frontend/lib/api.ts:20 | `joinUrl(b, p)` equals `joinUrl(b, '/' + p)` for a path without a leading '/' |
| Api.MediaUrl | frontend/lib/api.ts:64-71 | undefined exactly for an absent or empty path; a path starting with 'http' unchanged; otherwise base + path |
| Api.MediaUrlKeepsPath | frontend/lib/api.ts:64-71 | an absolute URL does not depend on the base, and every result ends with the path |
| GutscheinController.Discount | backend/src/api/gutschein/controllers/gutschein.ts:50-53 | the discount is a number exactly when the original total is |
| GutscheinController.DiscountBounds | backend/src/api/gutschein/controllers/gutschein.ts:52-53 | 'betrag' gives the smaller of value and total; a percentage of 0..100 % gives between 0 and the whole total, and 100 % all of it |
| GutscheinController.QuoteAnzahl | backend/src/api/gutschein/controllers/gutschein.ts:13 | a numeric count is at least 1 |
| GutscheinController.ValidateRejectsBadTermin | backend/src/api/gutschein/controllers/gutschein.ts:12-18 | 400 'Ungültiger Termin' exactly for a non-finite terminId, an unknown termin or a non-numeric price; 'Fehler' only when a read fails |
| GutscheinController.ValidateWithoutCode | backend/src/api/gutschein/controllers/gutschein.ts:29-41 | without a code: not valid, 'Kein Code', no discount, total = original total = price times count |
| GutscheinController.ValidateWithCode | backend/src/api/gutschein/controllers/gutschein.ts:43 | with a code the reply is the priced quote for the voucher stored under exactly that code |
| GutscheinController.PricedUnknownOrInactive | backend/src/api/gutschein/controllers/gutschein.ts:44-48 | an unknown or inactive code: not valid, 'Ungültig oder nicht aktiv', no discount, original total and its share per seat |
| GutscheinController.PricedWithVoucher | backend/src/api/gutschein/controllers/gutschein.ts:49-58 | with an active voucher: valid exactly when the discount is positive, total = max(0, original - discount) and never negative, per-seat price its rounded share |
| GutscheinController.PricedNeverRaises | backend/src/api/gutschein/controllers/gutschein.ts:57 | for a non-negative price and sane voucher values the new total lies between 0 and the original total |
| GutscheinController.QuoteAnzahlDefaults | backend/src/api/gutschein/controllers/gutschein.ts:13 | a numeric count is at least 1, and a missing, zero or empty count is 1 |
| BuchungController.ParseTermin | backend/src/api/buchung/controllers/buchung.ts:46-49 | an id is returned exactly when `Number(v)` is finite |
| BuchungController.ResolveDirect | backend/src/api/buchung/controllers/buchung.ts:51-93 | a usable direct id is kept and the order is not consulted; without an order id no count is recovered; a usable result comes from the body or from a found order |
| BuchungController.CheckOneMeaning | backend/src/api/buchung/controllers/buchung.ts:107-110 | one participant passes exactly when vorname and nachname are both non-blank strings |
| BuchungController.CheckFromMeaning | backend/src/api/buchung/controllers/buchung.ts:107-111 | the participant loop passes exactly when every participant from index i on is named |
| BuchungController.CheckFromFirst | backend/src/api/buchung/controllers/buchung.ts:107-111 | a failing loop reports the first unnamed participant, all before it being named |
| BuchungController.StoredTeilnehmer | backend/src/api/buchung/controllers/buchung.ts:182-189 | a given vorname and nachname are stored as typed |
| BuchungController.StoredTeilnehmerList | backend/src/api/buchung/controllers/buchung.ts:182-189 | the stored list has one entry per participant, in order, each the stored form of that participant |
| BuchungController.SeatPriceChoice | backend/src/api/buchung/controllers/buchung.ts:133-144 | a positive termin price is the seat price; otherwise, when the seminar read works, a non-zero seat price is the seminar's standardPreis and 0 without a seminar; when the read throws, the termin's own price (at most 0) stays |
| BuchungController.VoucherCode | backend/src/api/buchung/controllers/buchung.ts:116 | a code exists exactly when gutscheincode is a non-blank string |
| BuchungController.StoredSpellings | backend/src/api/buchung/controllers/buchung.ts:121-128 | every spelling the `$or` query can match is a stored code |
| BuchungController.FindVoucherMeaning | backend/src/api/buchung/controllers/buchung.ts:121-129 | a voucher is found exactly when one is stored under the code as typed, upper-cased or lower-cased, and it is the voucher of one of those, whichever row the database returns; when the code is stored under no other spelling it is the voucher stored under the code |
| BuchungController.Expected | backend/src/api/buchung/controllers/buchung.ts:284-285 | the expected total is never negative and equals the undiscounted total without a positive discount |
| BuchungController.PriceOverride | backend/src/api/buchung/controllers/buchung.ts:148-151 | an override exists exactly for a positive discount and a positive count, and is the rounded non-negative share of the discounted total |
| BuchungController.CustomerEmail | backend/src/api/buchung/controllers/buchung.ts:199-201 | 'firma' uses rechnungsEmail falling back to email, any other type uses email |
| BuchungController.FindKunde | backend/src/api/buchung/controllers/buchung.ts:203 | a found index carries that e-mail, and nothing is found exactly when no customer has it |
| BuchungController.LinkCustomerMeaning | backend/src/api/buchung/controllers/buchung.ts:198-224 | a customer is linked exactly when there is an e-mail and the store works; the linked one has that e-mail; an existing one is reused, else exactly one is appended |
| BuchungController.CaptureCheckMeaning | backend/src/api/buchung/controllers/buchung.ts:270-287 | a capture passes exactly when it was fetched, is COMPLETED and EUR ignoring case, and its value is a number within one cent of the expected total |
| BuchungController.CaptureCheck | backend/src/api/buchung/controllers/buchung.ts:247-287 | a capture that cannot be fetched is refused as not checkable, and every refusal is one of the four capture reasons |
| BuchungController.PublicCreate | backend/src/api/buchung/controllers/buchung.ts:34-323 | the reply and the new customers and bookings are those of the plan, for either way of passing the participants: the booking is appended exactly when the plan inserts one |
| BuchungController.CreateWithTermin | backend/src/api/buchung/controllers/buchung.ts:95-111 | an unusable or unknown termin and a bad participant list are refused before any write; otherwise the rest of the plan is carried out |
| BuchungController.CreateAccepted | backend/src/api/buchung/controllers/buchung.ts:113-307 | for a known termin and valid participants the reply, customers and bookings are those of the plan |
| BuchungController.TerminPlanAccepts | backend/src/api/buchung/controllers/buchung.ts:95-111 | for a known termin and a valid participant list the plan is that of the termin and the participants, with the count from the order or else the list's length |
| BuchungController.ResolveTerminStep | backend/src/api/buchung/controllers/buchung.ts:43-93 | the loop over the custom_id resolution gives the plan's termin id and count; a usable direct id never takes a count |
| BuchungController.CheckTeilnehmerField | backend/src/api/buchung/controllers/buchung.ts:104-111 | the participant checks give the plan's verdict, and passing implies a non-empty array |
| BuchungController.CheckTeilnehmer | backend/src/api/buchung/controllers/buchung.ts:107-111 | the loop returns the first failing check, and none exactly when all participants are named |
| BuchungController.AcceptBooking | backend/src/api/buchung/controllers/buchung.ts:113-303 | after the termin and participant checks the reply, customers and bookings are those of the plan |
| BuchungController.PrepareBooking | backend/src/api/buchung/controllers/buchung.ts:113-235 | the payload is the base data with the linked customer and payment fields, the discount uses the first seminar read, the expected total the second, and the customer list is the linked one |
| BuchungController.VerifyAndInsert | backend/src/api/buchung/controllers/buchung.ts:239-303 | a failed capture check, an error of the create hook run on the payload, or a failing store writes nothing; otherwise the booking, 'bezahlt' when a capture was verified and with the count and prices the hook filled in, is appended with the next id |
| BuchungController.ApplyVoucher | backend/src/api/buchung/controllers/buchung.ts:115-154 | the discount and override are those of the plan; a discount needs a code and a working read; an override implies a positive discount and a non-negative price |
| BuchungController.SetPaymentFields | backend/src/api/buchung/controllers/buchung.ts:226-235 | the payload gets the payment fields and the status 'offen' |
| BuchungController.LinkCustomerStep | backend/src/api/buchung/controllers/buchung.ts:198-224 | the id linked and the new customer list are those of LinkCustomer |
| BuchungController.CreateRejectsEarly | backend/src/api/buchung/controllers/buchung.ts:36-111 | a non-object, an unusable or unknown termin, or a bad participant list is refused with that reason and nothing written |
| BuchungController.TeilnehmerErrorMeaning | backend/src/api/buchung/controllers/buchung.ts:104-111 | the participant list passes exactly when it is a non-empty array of participants with non-blank vorname and nachname |
| BuchungController.CheckFrom | backend/src/api/buchung/controllers/buchung.ts:107-111 | a failing participant check names a participant of the list and is a missing vorname, a missing nachname or a name that is not text |
| BuchungController.CreatePlanAccepts | backend/src/api/buchung/controllers/buchung.ts:36-111 | a request past the early checks has a known termin and a non-empty participant list, and its plan is the plan for them |
| BuchungController.CreateInsertsOnlyOnSuccess | backend/src/api/buchung/controllers/buchung.ts:294-307 | something is inserted exactly when the reply is Created, and then it is the booking replied, with the next id, for a known termin |
| BuchungController.AcceptPlanShape | backend/src/api/buchung/controllers/buchung.ts:294-307 | after the checks a booking for the termin is inserted exactly when the reply is Created |
| BuchungController.InsertPlanShape | backend/src/api/buchung/controllers/buchung.ts:290-307 | for a prepared payload the customers stay as linked, the insert happens exactly when the reply is Created, and then with the payload's termin and participants and the status 'bezahlt' exactly for a capture id |
| BuchungController.InsertParticipants | backend/src/api/buchung/controllers/buchung.ts:191-195 | the relation object `{ create: [...] }` never passes the hook's participant check; an array passes it exactly when it is not empty |
| BuchungController.InsertPlanAsWritten | backend/src/api/buchung/controllers/buchung.ts:191-195 | as written the insert never stores: the reply is a capture refusal or the hook's participant error, and without a capture id always the latter |
| BuchungController.InsertPlanCorrected | backend/src/api/buchung/content-types/buchung/lifecycles.ts:49-55 | with the participants as an array a stored booking is as the hook normalises it, and without a capture id the only refusals are a missing company field and a failing store |
| BuchungController.PricedIsNormalised | backend/src/api/buchung/content-types/buchung/lifecycles.ts:29-47 | after the company check the booking with the hook's fields has anzahl equal to its participant count, all company fields, and the termin's price per seat with the total that price times anzahl |
| BuchungController.CreateNeverSucceedsAsWritten | backend/src/api/buchung/controllers/buchung.ts:191-195 | as written publicCreate never creates a booking and never stores one; a request without a capture id that passes the early checks gets 'Mindestens ein Teilnehmer ist erforderlich' from the create hook |
| BuchungController.CorrectedCreatedIsNormalised | backend/src/api/buchung/content-types/buchung/lifecycles.ts:49-55 | with the participants sent as an array a created booking is for a known termin and normalised by the hook; without a capture id, past the early checks, only a missing company field or a failing store refuses it |
| BuchungController.CreateStatus | backend/src/api/buchung/controllers/buchung.ts:234-294 | a created booking is 'bezahlt' exactly when a capture id was sent, and then the capture was COMPLETED and in EUR |
| BuchungController.CreateIgnoresClientStatus | backend/src/api/buchung/controllers/buchung.ts:158-180 | the plan does not depend on a buchungsstatus in the request |
| BuchungController.AcceptPlanIgnoresStatus | backend/src/api/buchung/controllers/buchung.ts:158-195 | the plan after the checks does not depend on the client's buchungsstatus |
| BuchungController.PayloadIgnoresStatus | backend/src/api/buchung/controllers/buchung.ts:158-195 | the assembled payload does not depend on the client's buchungsstatus |
| BuchungController.PaymentFieldsMeaning | backend/src/api/buchung/controllers/buchung.ts:227-233 | a capture id sets the reference to it and the method to 'paypal'; else a given reference is copied; an explicit method overrides |
| BuchungController.CaptureFailureKeepsCustomer | backend/src/api/buchung/controllers/buchung.ts:197-290 | a capture that cannot be fetched refuses the booking but keeps the customer linked before it |
| BuchungController.QuoteMatchesVerifier | backend/src/api/buchung/controllers/buchung.ts:272-285 | for a positive termin price and a code stored as typed and under no other spelling, the voucher quote's total is the total the capture check expects, and its per-seat price is the booking's override, whichever row the database returns |
| BuchungController.SnakeLower | backend/src/api/buchung/controllers/buchung.ts:12 | the snake_case name has no capitals, and a name without capitals is its own snake_case name |
| BuchungController.Get | backend/src/api/buchung/controllers/buchung.ts:12 | the value is the column under its own name or its snake_case name, the own name winning when not null or missing |
| BuchungController.GetAny | backend/src/api/buchung/controllers/buchung.ts:13-19 | undefined exactly when every key is undefined; otherwise the value of the first key that is defined |
| BuchungController.PublicGet | backend/src/api/buchung/controllers/buchung.ts:5-33 | a non-numeric id is refused, a failing read is an error, an unknown id not found, and a known id with a working read gives exactly the public view of its row, with buchungsstatus falling back to status |
| BuchungController.FirstDefinedMeaning | backend/src/api/buchung/controllers/buchung.ts:13-19 | the loop's answer is the first defined value |
| BuchungController.PublicViewOnlyPublicFields | backend/src/api/buchung/controllers/buchung.ts:20-28 | rows that agree on id, status and the five public fields give the same view |
| PaypalController.PaypalBaseLive | backend/src/api/paypal/controllers/paypal.ts:14-17 | the live API is chosen exactly when the mode is set and lower-cases to 'live'; otherwise, also when unset or empty, the sandbox |
| PaypalController.VerifySignature | backend/src/api/paypal/controllers/paypal.ts:37-68 | without a webhook id or any of the five headers the answer is false; it is true exactly when the checks pass and the status is 'SUCCESS'; it throws exactly when the checks pass and the remote round trip fails |
| PaypalController.PreCheckNeedsNoNetwork | backend/src/api/paypal/controllers/paypal.ts:38-55 | when the pre-check fails the outcome is false whatever the remote side would answer |
| PaypalController.ValueAmount | backend/src/api/paypal/controllers/paypal.ts:107-108 | an empty or missing value is NaN; a non-empty string is parsed as a decimal |
| PaypalController.FindBooking | backend/src/api/paypal/controllers/paypal.ts:94-102 | the first booking whose payment reference or capture id equals the capture id, and none exactly when no booking matches |
| PaypalController.Target | backend/src/api/paypal/controllers/paypal.ts:91-113 | the booking the webhook would update is an index into the list |
| PaypalController.HandleWebhook | backend/src/api/paypal/controllers/paypal.ts:71-131 | the bookings after the call are the webhook's effect on the old bookings and the reply its acknowledgement, where the update goes through exactly when the booking's update hook accepts the status data and the store works; the status is always 200 |
| PaypalController.UnverifiedChangesNothing | backend/src/api/paypal/controllers/paypal.ts:84-89 | an unverified event, also one whose verification threw, changes nothing and is acknowledged with verified:false |
| PaypalController.WebhookChangesOnlyWhenPaid | backend/src/api/paypal/controllers/paypal.ts:91-119 | the bookings change exactly when a verified completed capture names a booking, the currency is EUR and the value is within one cent of the stored numeric total, and then that booking is marked paid |
| PaypalController.WebhookFrame | backend/src/api/paypal/controllers/paypal.ts:114-116 | only the matched booking changes, only in status, method and reference, and no booking leaves 'bezahlt' for another status |
| PaypalController.WebhookIdempotent | backend/src/api/paypal/controllers/paypal.ts:91-119 | delivering the same event again leaves the state of the first delivery |
| PaypalController.FindBookingFirst | backend/src/api/paypal/controllers/paypal.ts:94-102 | a booking that matches with no match before it is the one found |
| PaypalController.WebhookNeverPaysAsWritten | backend/src/api/paypal/controllers/paypal.ts:114-116 | as written the status update is refused by the update hook, so no delivery changes a booking, and a verified capture that passes the amount check is acknowledged without `verified` |
| PaypalController.UpdateGoesThroughCorrected | backend/src/api/buchung/content-types/buchung/lifecycles.ts:57-62 | with the corrected hook the status update goes through exactly when the store works |
| BuchungLifecycles.TeilnehmerCheck | backend/src/api/buchung/content-types/buchung/lifecycles.ts:12-16 | passes exactly when the participants are an array of at least one entry, and otherwise fails with 'Mindestens ein Teilnehmer' |
| BuchungLifecycles.MissingAsWritten | backend/src/api/buchung/content-types/buchung/lifecycles.ts:22 | a field is missing exactly when it is falsy or its text trims to nothing, so a truthy number or boolean is never missing |
| BuchungLifecycles.FirstMissingNone | backend/src/api/buchung/content-types/buchung/lifecycles.ts:21-25 | the scan of the company fields passes exactly when none of them is missing |
| BuchungLifecycles.FirstMissingFirst | backend/src/api/buchung/content-types/buchung/lifecycles.ts:21-25 | a failing scan names the first missing field, and every field before it is present |
| BuchungLifecycles.FirmaCheckMeaning | backend/src/api/buchung/content-types/buchung/lifecycles.ts:18-27 | an invoice that is not 'firma' is not checked; a 'firma' invoice passes exactly when all six company fields are present, and a failure names one of them |
| BuchungLifecycles.EnsureFirmaFields | backend/src/api/buchung/content-types/buchung/lifecycles.ts:18-27 | the loop's answer is the company check |
| BuchungLifecycles.PricedMeaning | backend/src/api/buchung/content-types/buchung/lifecycles.ts:33-46 | anzahl is the participant count; a given price is never replaced by the termin's; a price, when there is one, is a number and gesamtpreis is that price times anzahl; without one gesamtpreis is untouched; every other field is unchanged |
| BuchungLifecycles.ComputeAnzahlUndPreis | backend/src/api/buchung/content-types/buchung/lifecycles.ts:29-47 | fails with 'Mindestens ein Teilnehmer' and changes nothing below one participant; otherwise the fields become the priced fields |
| BuchungLifecycles.BeforeCreate | backend/src/api/buchung/content-types/buchung/lifecycles.ts:49-55 | the outcome and the new fields are those of the create hook applied to the old data |
| BuchungLifecycles.BeforeUpdate | backend/src/api/buchung/content-types/buchung/lifecycles.ts:57-62 | the outcome and the new fields are those of the update hook as written applied to the old data |
| BuchungLifecycles.CreateHookMeaning | backend/src/api/buchung/content-types/buchung/lifecycles.ts:49-55 | a create fails exactly when the participants are missing or empty or the company check fails; a failure changes nothing and a success prices the fields |
| BuchungLifecycles.UpdateHookNeedsParticipants | backend/src/api/buchung/content-types/buchung/lifecycles.ts:57-62 | an update without a participant array is always refused |
| BuchungLifecycles.StatusUpdateRefused | backend/src/api/buchung/content-types/buchung/lifecycles.ts:57-62 | the webhook's status-only update is refused with 'Mindestens ein Teilnehmer' and its fields are not written |
| BuchungLifecycles.BeforeUpdateFixed | backend/src/api/buchung/content-types/buchung/lifecycles.ts:57-62 | the outcome and the new fields are those of the corrected update hook applied to the old data |
| BuchungLifecycles.UpdateHookFixedMeaning | backend/src/api/buchung/content-types/buchung/lifecycles.ts:57-62 | with the fix an update without participants and without rechnungstyp passes unchanged; one with participants behaves as before; the fix refuses nothing more than the original |
| BuchungLifecycles.StatusUpdateAcceptedFixed | backend/src/api/buchung/content-types/buchung/lifecycles.ts:57-62 | the webhook's status-only update passes the corrected hook unchanged |
| TerminLifecycles.NormTage | backend/src/api/termin/content-types/termin/lifecycles.ts:14-17 | only days with a date are kept, each with a non-empty date and a start time of at most 8 characters |
| TerminLifecycles.NormTageEmpty | backend/src/api/termin/content-types/termin/lifecycles.ts:18 | nothing is left to sort exactly when no day has a date |
| TerminLifecycles.EarliestFrom | backend/src/api/termin/content-types/termin/lifecycles.ts:19-20 | the chosen day is one of the days |
| TerminLifecycles.EarliestFromSpec | backend/src/api/termin/content-types/termin/lifecycles.ts:19-20 | the chosen day's key is no greater than any other day's, and no day before it has the same key: the first element of a stable sort by key |
| TerminLifecycles.LexLeRefl | backend/src/api/termin/content-types/termin/lifecycles.ts:19 | every key compares as no greater than itself |
| TerminLifecycles.Truthies | backend/src/api/termin/content-types/termin/lifecycles.ts:25 | the falsy parts are dropped |
| TerminLifecycles.YdmSwaps | backend/src/api/termin/content-types/termin/lifecycles.ts:23-25 | a date 'Y-M-D' with three non-empty parts becomes 'Y-D-M' |
| TerminLifecycles.TruthiesOfThree | backend/src/api/termin/content-types/termin/lifecycles.ts:25 | three non-empty parts are all kept, in order |
| TerminLifecycles.JoinThree | backend/src/api/termin/content-types/termin/lifecycles.ts:25 | three parts joined are the parts with the separator between them |
| TerminLifecycles.TitleParts | backend/src/api/termin/content-types/termin/lifecycles.ts:31 | at most three parts, none of them blank |
| TerminLifecycles.SetTitelIfEmpty | backend/src/api/termin/content-types/termin/lifecycles.ts:2-35 | the termine become the hook's effect on the old store, and no other collection changes |
| TerminLifecycles.AfterCreate | backend/src/api/termin/content-types/termin/lifecycles.ts:38-41 | with a result id the termine become the hook's effect for that id; without one nothing changes |
| TerminLifecycles.UpdatedId | backend/src/api/termin/content-types/termin/lifecycles.ts:43 | the result id when it is truthy, else the where id when truthy, and never 0 |
| TerminLifecycles.AfterUpdate | backend/src/api/termin/content-types/termin/lifecycles.ts:42-45 | the hook runs for the result id or else the where id, and nothing changes without either |
| TerminLifecycles.TitleEffectFrame | backend/src/api/termin/content-types/termin/lifecycles.ts:3-12 | only the title of the one termin can change, and only when it needs one; a termin with a non-blank title or without dated days is left alone |
| TerminLifecycles.TitleEffectIdempotent | backend/src/api/termin/content-types/termin/lifecycles.ts:9 | running the hook a second time changes nothing more |
| TerminLifecycles.TitleStartsWithDate | backend/src/api/termin/content-types/termin/lifecycles.ts:20-32 | with a well-formed earliest date the title's first part is that date as YYYY-DD-MM, and the title is the non-blank parts joined by ' – ' |
| CheckoutClient.SetField | frontend/app/checkout/CheckoutClient.tsx:160 | the edited key gets the new value and every other key of the participant keeps its value |
| CheckoutClient.ClampStep | frontend/app/checkout/CheckoutClient.tsx:35 | the initial step lies between 1 and 4, and a step already in that range is kept |
| CheckoutClient.InitialCount | frontend/app/checkout/CheckoutClient.tsx:51 | the form starts with at least one participant, exactly n for n >= 1, and none for a count that is not a number |
| CheckoutClient.RemovedMeaning | frontend/app/checkout/CheckoutClient.tsx:158 | the last remaining participant is never removed; otherwise exactly entry idx is taken out and the others keep their order; an index outside the list changes nothing |
| CheckoutClient.WithField | frontend/app/checkout/CheckoutClient.tsx:159-160 | only participant idx changes, and only in the edited key; the list keeps its length |
| CheckoutClient.Einzelpreis | frontend/app/checkout/CheckoutClient.tsx:76-82 | the termin's price when it is a finite number, else the seminar's standard price when that is, else 0 |
| CheckoutClient.EinzelpreisMatchesSeatPrice | frontend/app/checkout/CheckoutClient.tsx:76-82 | the price shown is the seat price the backend charges, unless the termin's price is a number that is not positive |
| CheckoutClient.Anzahl | frontend/app/checkout/CheckoutClient.tsx:83 | the count is the number of participants, and 1 for an empty list |
| CheckoutClient.Gesamt | frontend/app/checkout/CheckoutClient.tsx:85 | the quoted total when the last voucher check was valid, else the subtotal |
| CheckoutClient.NettoSteuerSplit | frontend/app/checkout/CheckoutClient.tsx:86-89 | net and VAT add up to the total; with VAT both lie between 0 and a non-negative total and the VAT is 19 % of the net to within 0.6 cent; without VAT it is 0 |
| CheckoutClient.Fixed2 | frontend/app/checkout/CheckoutClient.tsx:588 | the order amount is never empty text |
| CheckoutClient.Fixed2ReadsBack | frontend/app/checkout/CheckoutClient.tsx:588 | the backend reads the two-decimal order amount back as the same number of cents |
| CheckoutClient.PromoFromReply | frontend/app/checkout/CheckoutClient.tsx:436-449 | a failed request clears the promo; it is valid exactly when the reply is a valid quote; an invalid reply gives no discount and the subtotal |
| CheckoutClient.PromoFromReplyFixed | frontend/app/checkout/CheckoutClient.tsx:445 | as before, and a valid quote's total is taken whenever it is a number, 0 included |
| CheckoutClient.PromoFixedDiffersOnlyAtZero | frontend/app/checkout/CheckoutClient.tsx:445 | the corrected promo differs from the one as written only on a valid quote whose total is 0 |
| CheckoutClient.CaptureOfShown | frontend/app/checkout/CheckoutClient.tsx:303 | a completed EUR capture of the shown amount passes the booking's check exactly when it is within a cent of the expected total, and is refused for its amount otherwise |
| CheckoutClient.CompletedEurCapture | backend/src/api/buchung/controllers/buchung.ts:270-287 | a completed EUR capture passes exactly when its value is a non-empty numeral within a cent of the expected total |
| CheckoutClient.UpperCompleted | backend/src/api/buchung/controllers/buchung.ts:270 | 'COMPLETED' is its own upper case |
| CheckoutClient.UpperEur | backend/src/api/buchung/controllers/buchung.ts:271 | 'EUR' is its own upper case |
| CheckoutClient.FullDiscountRefusedAfterPayment | frontend/app/checkout/CheckoutClient.tsx:445 | a fixed voucher covering the whole order is valid and quotes 0, yet the checkout shows and charges the undiscounted subtotal, the booking expects 0, and a capture of more than one cent is refused with 'Betrag weicht ab' |
| CheckoutClient.QuotedTotalIsChargedFixed | frontend/app/checkout/CheckoutClient.tsx:445 | with the fix the amount shown and charged is the total the booking check expects, and the capture passes |
| CheckoutClient.UnusedVoucherKeepsTotal | frontend/app/checkout/CheckoutClient.tsx:446 | a voucher quote that is not valid leaves the total at the subtotal when the voucher's value is not negative |
| CheckoutClient.IntToStringNoPipe | frontend/app/checkout/CheckoutClient.tsx:304 | a number's text never contains '\|' |
| CheckoutClient.TerminPartReadsBack | frontend/app/checkout/CheckoutClient.tsx:304 | the termin part of the custom_id holds no '\|' and reads back as the termin id, or 0 without one |
| CheckoutClient.CustomIdRoundTrip | frontend/app/checkout/CheckoutClient.tsx:304 | the backend recovers the termin id (0 for none) and the seat count from the custom_id, whenever the slug holds no '\|' |
| CheckoutClient.SeedSlugRoundTrip | frontend/app/checkout/CheckoutClient.tsx:304 | with a slug the seed gives a seminar, the custom_id always reads back |
| CheckoutClient.CustomIdResolvesTermin | backend/src/api/buchung/controllers/buchung.ts:78-90 | without a usable termin id in the request the backend takes termin and seat count from the order's custom_id as the checkout built it |
| CheckoutClient.PersonsIn | frontend/app/checkout/CheckoutClient.tsx:325-332 | every participant is sent, in order |
| CheckoutClient.TerminIdToSend | frontend/app/checkout/CheckoutClient.tsx:339 | the initial termin id when it is set and not 0, else the loaded termin's id, else nothing |
| CheckoutClient.BookingBodyFields | frontend/app/checkout/CheckoutClient.tsx:310-343 | the contact e-mail only for a private invoice, the company fields only for a company, the voucher code only after a valid check; terms accepted and capture id always sent; no status sent; all participants sent |
| CheckoutClient.BookingBodyCustomerEmail | frontend/app/checkout/CheckoutClient.tsx:136-143 | a form that passes step 1 gives the backend a non-empty customer e-mail: the contact e-mail for a private invoice, the invoice e-mail for a company |
| CheckoutClient.BookingBodyParticipants | frontend/app/checkout/CheckoutClient.tsx:325-332 | the backend accepts the participants sent exactly when there is at least one and every name is non-blank |
| CheckoutClient.PersonNamed | frontend/app/checkout/CheckoutClient.tsx:326-327 | a participant sent passes the backend's name check exactly when both names are non-blank |
| CheckoutClient.PersonsInChecked | frontend/app/checkout/CheckoutClient.tsx:325-332 | the participants sent pass the backend's check exactly when there is one and every name is non-blank |
| CheckoutClient.NamedIff | frontend/app/checkout/CheckoutClient.tsx:325-332 | all participants sent are named exactly when all form names are non-blank |
| CheckoutClient.StepTwoWeakerThanBackend | frontend/app/checkout/CheckoutClient.tsx:144-146 | step 2 accepts a participant whose name is a single space, which the backend refuses |
| CheckoutClient.Checkout.constructor | frontend/app/checkout/CheckoutClient.tsx:35-68 | the initial state: clamped step, private invoice, empty address, the initial participants, no code or promo, terms preset, privacy and newsletter unchecked |
| CheckoutClient.Checkout.GoNext | frontend/app/checkout/CheckoutClient.tsx:123-129 | one step on, at most to 4, and only when the current step validates |
| CheckoutClient.Checkout.GoPrev | frontend/app/checkout/CheckoutClient.tsx:130-134 | one step back, never below 1 |
| CheckoutClient.Checkout.OpenStep | frontend/app/checkout/CheckoutClient.tsx:167 | a header click opens step k without any check |
| CheckoutClient.Checkout.BookingAccepted | frontend/app/checkout/CheckoutClient.tsx:363 | after the backend accepted the booking the success step 5 is shown |
| CheckoutClient.Checkout.SetRechnungstyp | frontend/app/checkout/CheckoutClient.tsx:172-175 | the invoice type is the one chosen |
| CheckoutClient.Checkout.SetAdresse | frontend/app/checkout/CheckoutClient.tsx:182-202 | the address form is the one entered |
| CheckoutClient.Checkout.SetChecks | frontend/app/checkout/CheckoutClient.tsx:276-284 | the three check boxes are as ticked |
| CheckoutClient.Checkout.SetGutscheincode | frontend/app/checkout/CheckoutClient.tsx:435 | the code is the one typed |
| CheckoutClient.Checkout.AddTeilnehmer | frontend/app/checkout/CheckoutClient.tsx:157 | one blank participant is appended |
| CheckoutClient.Checkout.RemoveTeilnehmer | frontend/app/checkout/CheckoutClient.tsx:158 | the list is the old one with entry idx removed, and never becomes empty |
| CheckoutClient.Checkout.SetTeilnehmerField | frontend/app/checkout/CheckoutClient.tsx:159-160 | the list is the old one with the field of participant idx set |
| CheckoutClient.Checkout.Total | frontend/app/checkout/CheckoutClient.tsx:84-85 | without a valid promo the total is the seat price times the count |
| CheckoutClient.Checkout.CheckVoucher | frontend/app/checkout/CheckoutClient.tsx:436-449 | without a termin id nothing is asked and nothing changes; otherwise the promo follows the reply as PromoFromReply reads it, a quoted total of 0 falling back to the subtotal |
| CheckoutClient.Checkout.CheckVoucherFixed | frontend/app/checkout/CheckoutClient.tsx:445 | as CheckVoucher, with the promo read by PromoFromReplyFixed, so a quoted total of 0 is kept |
| CheckoutClient.Checkout.Request | frontend/app/checkout/CheckoutClient.tsx:307-343 | when the PayPal button may start, the request passes the backend's participant check unless some name is blank |
| CheckoutPage.InitialStep | frontend/app/checkout/page.tsx:17 | the step is never 0: the number asked for when it is a non-zero number, else 1, also when absent |
| CheckoutPage.FindTermin | frontend/app/checkout/page.tsx:28 | the first termin with the id, and none exactly when no termin has it |
| CheckoutPage.SelectionMeaning | frontend/app/checkout/page.tsx:25-34 | seminar and termin are set together, exactly when the slug is non-empty, the id is a number, the seminar loads and one of its termine has that id; the termin then has that id and belongs to the seminar |
| CheckoutPage.CheckoutProps | frontend/app/checkout/page.tsx:14-53 | the step is never 0, a numeric count is at least 1, the slug is the parameter or '', the currency the variable or 'EUR' |
| CheckoutPage.CheckoutPropsSelection | frontend/app/checkout/page.tsx:16-43 | the termin id is passed exactly when the parameter is a number; seminar and termin are both set or both unset, and a set termin has the passed id and came with a slug |
| CheckoutPage.CheckoutPropsDefaults | frontend/app/checkout/page.tsx:15-23 | without parameters: step 1, one seat, no termin, no seminar and an empty slug |
| CheckoutPage.AnzahlOfNumeral | frontend/app/checkout/page.tsx:18 | a numeric anzahl at least 1 is taken as given, and a smaller one raised to 1 |
| SeminarePage.FmtDateIsoToGerman | frontend/app/seminare/page.tsx:7-11 | the result is empty exactly when the date is absent or empty |
| SeminarePage.FmtDateOfIso | frontend/app/seminare/page.tsx:9-10 | an ISO date 'Y-M-D' becomes 'D.M.Y' |
| SeminarePage.FmtDateReadsBack | frontend/app/seminare/page.tsx:9-10 | splitting the German date at '.' gives the ISO parts in reverse order |
| SeminarePage.FmtDateWithoutDash | frontend/app/seminare/page.tsx:9-10 | a date without '-' is taken as the year alone and day and month are written 'undefined' |
| SeminarePage.FirstTermin | frontend/app/seminare/page.tsx:21 | the first termin of the seminar, and none exactly when it has none |
| SeminarePage.FirstDay | frontend/app/seminare/page.tsx:22 | a first day is the date of the first day of the first termin |
| SeminarePage.SeminarCard | frontend/app/seminare/page.tsx:20-44 | a price line exactly when standardPreis is not undefined, showing the value, null included; a next-termin line exactly when the first day has a date, in German notation; a location only when non-empty |
| SeminarePage.CardLocation | frontend/app/seminare/page.tsx:23 | the location comes from the first termin only: standort, else veranstaltungsort, else stadt, the first one that is not empty |
| Seed.ReplaceEszett | backend/src/index.ts:29-30 | no 'ß' is left, and text without one is unchanged |
| Seed.BaseLetter | backend/src/index.ts:31 | characters below U+00C0 keep their letter |
| Seed.StripDiacritics | backend/src/index.ts:31 | text of characters below U+00C0 without combining marks is unchanged |
| Seed.DropOthers | backend/src/index.ts:34 | what is left starts with a letter or digit, and a string that already does is unchanged |
| Seed.Dashify | backend/src/index.ts:34 | empty exactly for empty input; a leading letter or digit is kept and a leading run of anything else becomes '-' |
| Seed.DashifyShape | backend/src/index.ts:34 | after the run replacement only a-z, 0-9 and '-' remain and no '--' |
| Seed.DropLeadingDashes | backend/src/index.ts:35 | no leading '-' is left |
| Seed.DropTrailingDashes | backend/src/index.ts:35 | no trailing '-' is left and the first character is kept |
| Seed.DropLeadingSuffix | backend/src/index.ts:35 | what is left is a suffix of the input |
| Seed.DropTrailingPrefix | backend/src/index.ts:35 | what is left is a prefix of the input |
| Seed.TrimDashes | backend/src/index.ts:35 | the result neither starts nor ends with '-' |
| Seed.TrimDashesShape | backend/src/index.ts:35 | trimming the edge dashes keeps the alphabet and the single dashes |
| Seed.CollapseDashes | backend/src/index.ts:36 | text without '--' is unchanged |
| Seed.SlugifyShape | backend/src/index.ts:28-37 | a slug holds only a-z, 0-9 and '-', neither starts nor ends with '-', never holds '--' or '\|', and the last replacement has nothing to do |
| Seed.NoBarInSlugAlphabet | backend/src/index.ts:28-37 | text in the slug alphabet holds no '\|' |
| Seed.AlnumsAppend | backend/src/index.ts:34 | the letters and digits of two strings joined are those of each, in order |
| Seed.AlnumsDashify | backend/src/index.ts:34 | the run replacement keeps the letters and digits, in order |
| Seed.SlugifyKeepsAlnums | backend/src/index.ts:28-37 | the slug keeps exactly the letters and digits of the folded name, in order |
| Seed.DashifyWord | backend/src/index.ts:34 | a word of letters and digits passes the run replacement unchanged |
| Seed.DashifySeparator | backend/src/index.ts:34 | a run of separators before a word becomes a single '-' |
| Seed.DashifyRun | backend/src/index.ts:34 | a run of separators between two words becomes exactly one '-' |
| Seed.SlugifyIdempotent | backend/src/index.ts:28-37 | a slug is its own slug |
| Seed.FixesSlug | backend/src/index.ts:28-37 | text that already has the shape of a slug is unchanged |
| Seed.FoldedPlain | backend/src/index.ts:29-33 | lower-case ASCII letters, digits and separators are unchanged by folding |
| Seed.SlugifyTwoWords | backend/src/index.ts:28-37 | two lower-case words joined by any run of ASCII separators become the two words joined by one '-' |
| Seed.Bootstrap | backend/src/index.ts:24-25 | the data is deleted exactly when SEED_RESET is 'true'; a seed runs exactly when SEED or SEED_RESET is 'true', and the full seed exactly when moreover no seminar exists |
| Seed.OnlyTrueSwitchesOn | backend/src/index.ts:24-25 | any other spelling of the flags leaves the data alone |
| Seed.Rotation | backend/src/index.ts:166 | the image taken is one of the images |
| Seed.ImageUpdates | backend/src/index.ts:162-172 | at most one update per seminar, and none without images |
| Seed.Missing | backend/src/index.ts:164 | the seminars without an image are among the seminars |
| Seed.Assigned | backend/src/index.ts:162-172 | one update per seminar without an image |
| Seed.ImageUpdatesAssigns | backend/src/index.ts:162-172 | with images available, the updates are the rotation assigned to the seminars without an image |
| Seed.AssignedAt | backend/src/index.ts:166-170 | the k-th seminar without an image gets image idx + k of the rotation |
| Seed.ImageUpdatesMeaning | backend/src/index.ts:154-175 | with images available, exactly the seminars without an image get one, in order, the k-th of them image k of the rotation |
| Seed.FillMissingImages | backend/src/index.ts:162-172 | the loop's updates are the image pass's updates |
| Seed.SeminarAt | backend/src/index.ts:284-292 | a created seminar has the store's id, the standard price, the slug of its name and image k of the rotation |
| Seed.ImageAt | backend/src/index.ts:284 | an image exactly when there are images, and then one of them |
| Seed.SeminarAtSlug | backend/src/index.ts:288 | every seeded slug is a slug, holds no '\|' and keeps the letters and digits of the folded name |
| Seed.CreateSeminare | backend/src/index.ts:281-294 | one seminar per payload, the k-th as SeminarAt gives it |
| Seed.TermineFor | backend/src/index.ts:313-347 | two or three termine per seminar, each for that seminar at the place the rotation picks |
| Seed.CreateTermine | backend/src/index.ts:308-365 | the termine created are those of all seminars in order, and termCount is their number |
| Seed.CreateEach | backend/src/index.ts:349-364 | each termin of one seminar is appended in turn and counted |
| Seed.TermineForShape | backend/src/index.ts:313-347 | a third termin exactly for a multiple of 3, a two-day second termin exactly for an even index, the capacities as listed, and the first termin's date before the second's |
| Seed.TermineForPrices | backend/src/index.ts:319-342 | the first termin costs the standard price, the second 5 % more and the third 5 % less, each to the nearest cent |
| Seed.PercentPrice | backend/src/index.ts:331 | round2(p * f / 100) is within half a cent of the exact value, and not below p for f >= 100 nor above it for f <= 100 |
| Seed.TermineCount | backend/src/index.ts:309-365 | n seminars give 2n termine plus one for every multiple of 3 below n |
| Seed.SeedTermineCount | backend/src/index.ts:225-280 | the six seed seminars get 14 termine |

## Left out

- The HTTP exchanges with PayPal are left out: the OAuth token, order creation, capture and webhook-signature verification. Their outcomes are parameters (`Lookup`), because they are network I/O.
- The internals of Strapi's entity service and database are left out. The store is modelled as maps and sequences keyed by id, and ids come in as parameters. Queries, relations and publishing belong to the framework.
- Concurrency is left out. Two bookings racing to create the same customer, or for the last seats of a date, are not modelled; every operation runs alone against the store.
- Floating point is left out (`Number.EPSILON`, `toFixed`, the division by 1.19). Money is integer cents. `Math.round(x * 100) / 100` becomes round-half-up division, and the 0.01 tolerance becomes one cent. Binary rounding effects are not modelled.
- Numbers are integers, with `NaN` as the only other value. Fractions, `Infinity` and `-0` are not modelled. Voucher values and seat prices are held in hundredths: cents, or hundredths of a percent.
- Common.ParseNumber: reads only optionally signed decimal integers. `Number()` also accepts fractions ("1.0"), exponents ("1e2"), hex ("0x10") and "Infinity", which the model treats as `NaN`.
- Money.ParseAmount: reads only optionally signed decimal numerals; exponent and hex forms fall under `NaN` here.
- PaypalController.ValueAmount: a JavaScript number in the webhook body is read as a whole number of euros.
- Common.IsSpace: leaves out some whitespace that `trim` removes, namely the Unicode space separators U+1680, U+2000–U+200A, U+202F, U+205F and U+3000.
- Common.LowerChar: maps ASCII letters only; `toLowerCase` on other letters is not modelled.
- Common.Upper: upper-cases ASCII letters only and keeps the length; `toUpperCase` also maps other letters, such as 'ü' to 'Ü', and 'ß' to 'SS'. A voucher code with such letters may therefore match a different set of stored spellings here than in the store.
- BuchungController.SeatPrice: a termin price that is `NaN` with a failing seminar read gives 0, where the source goes on computing with `NaN`; a decimal column never holds `NaN`.
- The termin lookup inside the create hook is taken from the store's termine; a failure of that read is not modelled separately from a failing insert.
- Seed.StripDiacritics: NFD decomposition is modelled for Latin-1 letters only.
- TerminLifecycles.EarliestFrom: `localeCompare` is modelled as code-unit order. On ISO dates and `HH:MM` times the two orders agree. The in-place `sort` of the normalised days is modelled by the day it puts first, which is all the hook reads.
- The current date is a parameter in ISO form. The seed's `makeDate` offsets are day numbers already turned into dates.
- The seed's image upload, its filesystem reads and the deletion done by the reset switch are left out. So is the creation of its venues (`orte`), a plain create loop: the venue ids are a parameter.
- The booking totals that the content type stores (`gesamtpreisBrutto` and the others) are not computed by the public create code; the booking is created with them unset.
- React rendering, hooks, router and query-string updates, `fetch` and `fetchJSON` are left out. Their results are parameters of the checkout methods.
- Loading of the PayPal SDK (the polling `setInterval`) and the `PayPalCheckout`/`PayPalProvider` wrappers are left out, because they are browser I/O.
- The success and cancel pages, routes, policies, the Strapi configuration and `seminar.ts` are not part of this model. They hold no booking logic.
- Logging (`console.*`, `strapi.log`) is left out.

## Findings

| source | as written | input that shows it | evidently intended | confidence | as-written member | corrected member |
|---|---|---|---|---|---|---|
| backend/src/api/buchung/content-types/buchung/lifecycles.ts:57-62 | `beforeUpdate` always runs the participant check and the count-and-price step, so it throws when the update carries no `teilnehmer` | the webhook's update `{ buchungsstatus: 'bezahlt', zahlungsmethode: 'paypal', zahlungsreferenz: id }` (backend/src/api/paypal/controllers/paypal.ts:114-116) is refused with "Mindestens ein Teilnehmer" | the check and the count-and-price step run only when the update carries participants | not executed | BuchungLifecycles.StatusUpdateRefused | BuchungLifecycles.StatusUpdateAcceptedFixed |
| frontend/app/checkout/CheckoutClient.tsx:445 | `Number(json.total?.gesamtpreisBrutto \|\| zwischensumme)` takes a quoted total of 0 for a missing one | a valid 'betrag' voucher whose value covers the whole order, with a subtotal above one cent: the page charges the full subtotal and the booking then refuses the capture with "Betrag weicht ab" | `??` in place of `\|\|`, so that a total of 0 is kept | not executed | CheckoutClient.FullDiscountRefusedAfterPayment | CheckoutClient.QuotedTotalIsChargedFixed |
| backend/src/api/buchung/controllers/buchung.ts:191-195 | the payload carries the participants as `teilnehmer: { create: teilnehmerItems }`, which is not an array, and the insert (buchung.ts:299) runs the create hook, whose `ensureTeilnehmerArray` (backend/src/api/buchung/content-types/buchung/lifecycles.ts:12-16) throws on it | any request that passes the termin and participant checks and, with a capture id, the capture check: the reply is 'Mindestens ein Teilnehmer ist erforderlich' and no booking is stored | the participants are passed as the array itself, so the hook counts and prices them | not executed | BuchungController.CreateNeverSucceedsAsWritten | BuchungController.CorrectedCreatedIsNormalised |
