# F5-Hotel reservation core in Dafny

This project models the core of the F5-Hotel web application. The model has two parts.

The server side holds:
- the booking store behind the admin gate: create, list per guest, list all, change status, delete;
- the booking schema with its pre-save date check;
- the account routes: signup, login, admin login, update and delete of users, and the admin token check.

The browser side holds:
- the booking page: the room table, the price preview, the submit handler and the auto-fill of guest details;
- the admin dashboard statistics;
- the signup form validation;
- the session helpers, the two logouts and HTML escaping;
- the admin reservations table: status badge, confirm and delete buttons, field fallbacks, count label and the confirm and delete requests.

Modules, one per source area:

- `Common`: the shared pieces.
  - `Option`, `Result`, and the HTTP `Reply` shape (success, failure with a message, or the 400 "Validation failed" list).
  - `Failing`: the express-validator rule that every failing field is reported.
  - JavaScript string helpers: `trim`, ASCII `toLowerCase`, `split`, `parseInt`, and decimal printing.
  - String length as the browser counts it (UTF-16 code units) and as the server's validator counts it (code points).
- `Pricing`: nights as the ceiling of the stay over 24 hours, and the total price.
- `BookingModel`: the booking record, its enums, and `Save`, which is schema validation followed by the pre-save hook.
- `Accounts`: `UserStore`, a class over a map of users, with the account routes.
- `Bookings`: `BookingStore`, a class over a map of bookings, with the booking routes.
- `ClientSecurity`: browser storage as two maps, and the `BrowserStorage` class with the logouts.
- `ClientBooking`, `Dashboard`, `SignupForm` and `AdminBookings`: the browser pages.

How the environment becomes parameters:
- Requests and storage are values.
- The database is the store's map.
- Signature checking of tokens, e-mail checks, the ISO-8601 check, date parsing and password comparison are function parameters.
- Clocks and fresh ids are method parameters.

## Model

| member | source | states |
|---|---|---|
| Common.Failing | routes/auth.js:72-79 | the validation error list never has more entries than there are checked fields |
| Common.FailingExactly | routes/auth.js:72-79 | a field is reported exactly when it is checked and its check fails |
| Common.TrimEmptyIff | js/signup.js:13-14 | a trimmed value is empty exactly when the input is all white space |
| Common.TrimIdempotent | js/signup.js:13 | trimming leaves no white space at either end, and trimming twice changes nothing |
| Common.ToLower | js/admin-bookings.js:109 | lower-casing keeps the length and maps each character through the ASCII case rule |
| Common.Utf16Length | js/signup.js:40 | the browser's `.length` counts each character once, or twice when it is astral, so it lies between the character count and twice that |
| Common.ValidatorLength | routes/auth.js:45-46 | the length `isLength` checks never exceeds the character count |
| Common.PlainLengths | js/signup.js:47 | on text without astral characters or variation selectors, the browser's and the validator's lengths both equal the character count |
| Common.SplitJoin | routes/auth.js:10 | splitting on a separator undoes joining parts that do not contain it |
| Common.IndexOfPrefix | routes/auth.js:10 | the first separator lies right after a prefix that does not contain it |
| Common.DecimalRoundTrip | js/admin-bookings.js:84 | reading back a printed natural number gives the number |
| Common.ParseInt | js/booking.js:107 | parseInt gives a number exactly when, after leading white space and an optional sign, a digit follows |
| Common.ParseIntOfNumeral | js/booking.js:107 | parseInt of a printed natural number followed by a non-digit gives that number |
| Pricing.CeilDiv | routes/bookings.js:79 | the quotient is the ceiling: (q-1)·d < a ≤ q·d |
| Pricing.CeilDivUnique | routes/bookings.js:79 | the ceiling is the only number within one divisor of the dividend from above |
| Pricing.CeilDivPositiveIff | routes/bookings.js:79 | the ceiling is at least 1 exactly when the dividend is positive |
| Pricing.CeilDivMonotone | routes/bookings.js:79 | the ceiling grows with the dividend |
| Pricing.MulMonotone | routes/bookings.js:80 | multiplying by a positive factor keeps order |
| Pricing.NightsIsCeiling | routes/bookings.js:79 | nights equal n exactly when the stay is longer than n-1 days and at most n days |
| Pricing.NightsPositiveIff | js/booking.js:109-111 | at least one night is charged exactly when check-out is after check-in |
| Pricing.NightsMonotone | routes/bookings.js:79 | a later check-out never yields fewer nights |
| Pricing.WholeDays | routes/bookings.js:79 | a stay of exactly d days counts d nights |
| Pricing.JuneScenario | routes/bookings.js:77-80 | 1–4 June 2024 in two Standard Rooms is 3 nights and 21000 |
| Pricing.TwentyFiveHours | routes/bookings.js:79 | a 25-hour stay is charged as two nights |
| Pricing.TotalAtLeastOneNight | routes/bookings.js:80 | a valid stay costs at least one night of every room and more than zero |
| BookingModel.ParseRoomType | models/Booking.js:24-28 | a room type string is accepted exactly when it is one of the four enum names, and it reads back to that name |
| BookingModel.ParseStatus | models/Booking.js:69-73 | a status string is accepted exactly when it is one of the four enum names, and it reads back to that name |
| BookingModel.WireNamesRoundTrip | models/Booking.js:24-73 | every room type and status parses back from its own wire name |
| BookingModel.Save | models/Booking.js:3-105 | a saved booking conforms to the schema and carries the given id and timestamps; a validation failure names at least one path; a date-order failure only occurs when check-out is not after check-in |
| BookingModel.ConformingSavesToItself | models/Booking.js:3-97 | a conforming booking, written out field by field, saves back to itself |
| BookingModel.SaveDefaults | models/Booking.js:47-84 | missing room count, status, requests and receipt default to 1, Pending, "" and "" |
| BookingModel.DateOrderRejected | models/Booking.js:100-105 | a check-out equal to check-in is rejected by the pre-save hook |
| BookingModel.UnknownRoomTypeRejected | models/Booking.js:24-28 | every room type outside the enum fails validation on that path alone, when the other fields are valid |
| BookingModel.RoomTypeExamples | models/Booking.js:24-28 | the enum check is case-sensitive: "standard room" and "Luxury Yacht" are refused, "Standard Room" is accepted |
| BookingModel.TotalsNotCrossChecked | models/Booking.js:55-66 | the schema accepts any total price, whether or not it matches nights × price × rooms |
| Accounts.BearerToken | routes/auth.js:10-17 | an extracted token is never empty and contains no space |
| Accounts.BearerTokenIsSecondPart | routes/auth.js:10 | the token is the second space-separated part of the header, and a missing or empty part means no token |
| Accounts.VerifyAdminToken | routes/auth.js:8-40 | admits only an existing admin; no token gives 401 "No token provided"; a token that does not verify gives 401 "Invalid or expired token"; 403 exactly when a valid token names a user who is not an admin |
| Accounts.GateAdmitsExactlyAdmins | routes/auth.js:19-32 | the gate admits id exactly when the token verifies to id and id is an admin |
| Accounts.SignupErrorsComplete | routes/auth.js:43-51 | a signup field is reported exactly when its rule fails |
| Accounts.LoginErrors | routes/auth.js:53-56 | login validation passes exactly when the trimmed username and the password are non-empty |
| Accounts.BooleanValue | routes/auth.js:65 | `isBoolean()` accepts a boolean, the texts "true", "false", "1" and "0", and the numbers 1 and 0, and rejects null; an accepted value reads as true exactly when it is true, "true", "1" or 1 |
| Accounts.UpdateErrorsExactly | routes/auth.js:58-66 | an update field is reported exactly when it is present and its rule fails; isAdmin arrives as any JSON value, so its isBoolean rule can fail |
| Accounts.AdminTextUpdate | routes/auth.js:65 | a text isAdmin is reported exactly when it is not "true", "false", "1" or "0", and an accepted one sets the flag to what it names |
| Accounts.AdminTextAccepted | routes/auth.js:65 | the isAdmin rule and the cast on a text value, field by field |
| Accounts.ApplyUpdate | routes/auth.js:384-388 | an update keeps the id and each field it does not carry, and sets the admin flag through the Boolean cast |
| Accounts.AdminAfter | routes/auth.js:384-388 | an absent isAdmin keeps the stored flag; a castable one replaces it with its boolean reading |
| Accounts.AddKeepsUnique | routes/auth.js:84-109 | adding a user whose username and e-mail are free keeps usernames and e-mails unique |
| Accounts.UpdateKeepsUnique | routes/auth.js:363-388 | an update that passes the clash check keeps usernames and e-mails unique |
| Accounts.UserStore.Signup | routes/auth.js:69-139 | invalid input gives the 400 list and no change; a taken e-mail or username gives 400, "Email already registered" only when the e-mail is taken, "Username already taken" only when the username belongs to someone with another e-mail, hence "Email" whenever every holder of the username also holds the e-mail; success is 201, exactly when input is valid and nothing clashes, and adds exactly the new user |
| Accounts.UserStore.Register | routes/auth.js:84-130 | duplicate checks then save: the duplicate message is pinned as in Signup; 201 adds exactly the new user; any clash leaves the users unchanged |
| Accounts.UserStore.Login | routes/auth.js:142-210 | succeeds exactly when a user with the trimmed name has the given password; success stamps only that user's last login; otherwise 401 "Invalid credentials" |
| Accounts.UserStore.AdminLogin | routes/auth.js:213-289 | unknown name gives 401; non-admin gives 403 before the password is checked; wrong password gives 401; success stamps last login |
| Accounts.UserStore.UpdateUser | routes/auth.js:345-410 | 200 exactly when the gate admits, validation passes, no other user holds the new username or e-mail, and the id exists; otherwise the gate's refusal, then the validation list, then the clash ("Email already registered" when no other user has the username, "Username already taken" when no other user has the e-mail), then 404; success replaces only that user and never changes the password |
| Accounts.UserStore.Revise | routes/auth.js:360-401 | 200 exactly when nothing clashes and the user exists; a clash names the e-mail when no other user has the username and the username when no other user has the e-mail; otherwise nothing changes |
| Accounts.UserStore.DeleteUser | routes/auth.js:413-451 | an admin cannot delete themself; a missing user gives 404; success removes exactly that user |
| Bookings.AdminGate | routes/bookings.js:18-48 | admits exactly whom the account gate admits; a token that does not verify gives 401 "Invalid token" |
| Bookings.CreateErrorsExactly | routes/bookings.js:9-15 | a create field is reported exactly when its rule fails |
| Bookings.PassedValidation | routes/bookings.js:9-15 | a request with no errors has ISO dates, a room type, and guest and room counts of at least 1 |
| Bookings.RequestDraft | routes/bookings.js:76-98 | the stored draft is Pending, without receipt, with the special requests or "", and with nights computed from the dates |
| Bookings.RequestSavesIff | routes/bookings.js:83-100 | a validated request saves exactly when the room type is in the enum and check-out is after check-in |
| Bookings.CreatedBooking | routes/bookings.js:76-106 | a created booking belongs to the requesting user, is Pending, and charges nights × price × rooms |
| Bookings.ReceiptUrl | utils/pdfGenerator.js:93 | the receipt address is never empty |
| Bookings.StatusUpdate | routes/bookings.js:181-206 | sets status and update time, generates a receipt only on a first successful confirmation, and changes nothing else |
| Bookings.ReceiptNeverRegenerated | routes/bookings.js:195-201 | once a receipt exists, no later status change replaces it or the id |
| Bookings.ConfirmTwice | routes/bookings.js:195-201 | confirming twice keeps the receipt from the first confirmation |
| Bookings.LastStatusWins | routes/bookings.js:181-185 | after a series of status changes the booking has the last one |
| Bookings.InsertNewest | routes/bookings.js:152-153 | inserting into the newest-first list adds exactly the booking |
| Bookings.InsertNewestSorted | routes/bookings.js:152-153 | inserting keeps the list ordered newest first |
| Bookings.InsertNewestBound | routes/bookings.js:152-153 | inserting keeps an upper bound on the creation times |
| Bookings.InsertNewestAdds | routes/bookings.js:152-153 | inserting a new booking into a list without repeats gives a list without repeats that holds both |
| Bookings.BookingStore.Create | routes/bookings.js:51-116 | validation failure gives the 400 list; 201 exactly when the request validates and saves, adding exactly that booking; a save failure gives 500 and no change |
| Bookings.BookingStore.Collect | routes/bookings.js:152-153 | lists exactly the stored bookings of the owner, newest first, without repeats |
| Bookings.BookingStore.ListForUser | routes/bookings.js:140-167 | an empty, "undefined" or "null" user id is refused with 400; otherwise the user's bookings newest first |
| Bookings.BookingStore.ListAll | routes/bookings.js:119-137 | admins get every booking newest first; others get the gate's refusal |
| Bookings.BookingStore.SetStatus | routes/bookings.js:170-220 | gate, then 400 for a status outside the enum, then 404; success replaces only that booking with its status update |
| Bookings.BookingStore.Delete | routes/bookings.js:223-245 | gate, then 404 for a missing booking; success removes exactly that booking |
| Bookings.DeleteTwice | routes/bookings.js:225-232 | deleting the same booking twice succeeds once and then gives 404 |
| ClientSecurity.GetItem | js/security.js:76-78 | storage lookup gives a value exactly for a stored key |
| ClientSecurity.CheckAdminAuth | js/security.js:4-14 | the admin is signed in exactly when the session flag and the admin token are both set |
| ClientSecurity.CheckUserAuth | js/security.js:17-27 | the user is signed in exactly when the session flag and the user token are both set |
| ClientSecurity.GetAuthToken | js/security.js:76-78 | the user token when set, otherwise the admin token |
| ClientSecurity.GetAdminAuthToken | js/security.js:81-83 | the stored admin token, exactly when one is stored |
| ClientSecurity.SignedInTokens | js/security.js:4-83 | a signed-in user's token getter gives the stored user token; a signed-in admin without a user token gets the admin token |
| ClientSecurity.LogoutsAreSeparate | js/security.js:30-51 | each logout signs out its own side and leaves the other side's sign-in unchanged |
| ClientSecurity.BrowserStorage.HandleUserLogout | js/security.js:42-51 | when confirmed, removes exactly the user keys and the user is signed out; otherwise nothing changes |
| ClientSecurity.BrowserStorage.HandleAdminLogout | js/security.js:30-39 | when confirmed, removes exactly the admin keys and the admin is signed out; otherwise nothing changes |
| ClientSecurity.EscapeText | js/security.js:86-90 | escaped text has no angle brackets and is no shorter than the input |
| ClientSecurity.UnescapeChar | js/security.js:86-90 | decoding undoes the escape of one character |
| ClientSecurity.EscapeRoundTrip | js/security.js:86-90 | decoding escaped text gives back the original text |
| ClientSecurity.EscapePlainText | js/security.js:86-90 | text without &, <, > or no-break space passes unchanged |
| ClientSecurity.SanitizeFormData | js/security.js:93-103 | keeps every key, escapes every string value, and leaves other values as they are |
| ClientBooking.RoomTable | js/booking.js:4-9 | exactly the four room keys have an entry |
| ClientBooking.RoomTableAgreesWithSchema | js/booking.js:4-9 | every room name is a room type the booking schema accepts; a missing room parameter falls back to the Standard Room at 3500 |
| ClientBooking.LookupRoom | js/booking.js:4-9 | `roomTypes[key]` finds a room exactly for the four own keys, a price-less prototype member exactly for the twelve keys inherited from Object.prototype (named as its function, "Object" for `constructor`, unnamed for `__proto__`), and nothing otherwise |
| ClientBooking.RoomNameIsPlain | js/booking.js:4-9 | room names pass through the sanitiser unchanged |
| ClientBooking.NumRooms | js/booking.js:107 | a parsed non-zero count is used as is; anything else becomes 1; the result is never 0 |
| ClientBooking.NumRoomsOfNumeral | js/booking.js:107 | a typed positive count is read back exactly |
| ClientBooking.CalculateTotal | js/booking.js:94-121 | the preview changes only when both dates are set and in order; then a key with nothing under it throws, a key inherited from Object.prototype shows the nights and rooms with a NaN total, and a room of the table shows nights × price × rooms |
| ClientBooking.UserIdOf | js/booking.js:172-173 | a user id is found exactly when `id` or `_id` is set |
| ClientBooking.SubmitRecord | js/booking.js:172 | no stored `userData` reads as the empty record; a stored one is its parsed object, and throws when it is not JSON or is null |
| ClientBooking.HandleBookingSubmit | js/booking.js:155-230 | refuses out-of-order dates; then throws on an unparsable or null `userData`, asks for login without a user id, throws on a room key with nothing under it, and otherwise sends the sanitised payload, with the computed total for a room of the table and a NaN total and no price for an inherited key |
| ClientBooking.SendBooking | js/booking.js:186-207 | the body sent has exactly the payload's keys, each string escaped, and the total is nights × price × rooms only for a table room with both dates valid |
| ClientBooking.SentRoomAgreesWithServer | js/booking.js:182-207 | the room type sent is one the server's schema accepts, at the table's price |
| ClientBooking.SentRoomCount | js/booking.js:187-201 | the room count sent is the parsed count, never 0 |
| ClientBooking.InheritedRoomSendsNoPrice | js/booking.js:184-202 | a key inherited from Object.prototype sends no price, and a room type (absent only for `__proto__`) that the booking schema refuses |
| ClientBooking.PrototypeNameRefused | js/booking.js:197 | no name of an Object.prototype member is a room type of the booking schema |
| ClientBooking.ComposedNameSplits | js/booking.js:43-46 | the composed full name splits back into first, optional middle and last name |
| ClientBooking.StoredProfile | js/booking.js:35-40 | the `userData` record when stored, else the `currentUser` record, parsed inside the try: no record or text that is not JSON gives the empty record, and a null record leaves nothing to read |
| ClientBooking.UserDataShadowsCurrentUser | js/booking.js:37 | while `userData` is stored, the `currentUser` entry is never read |
| ClientBooking.SubmitReadsAutoFilledRecord | js/booking.js:172 | an object under `userData` is read alike by both handlers; text that is not JSON is emptied on autofill but throws on submit |
| ClientBooking.CurrentUserNotSubmitted | js/booking.js:172-173 | a record stored only under `currentUser` fills the guest fields, but the submit finds no user id |
| ClientBooking.AutoFillUserInfo | js/booking.js:34-68 | nothing is filled when the stored record is null; otherwise, from the record, the stored full name is preferred over the composed one, e-mail is filled only when set, and phone falls back from contact number to phone |
| Dashboard.Filter | js/admin-dashboard.js:57-59 | the filtered list is no longer than the input, holds only matching entries, and keeps every matching entry |
| Dashboard.FilterAppend | js/admin-dashboard.js:79-86 | filtering distributes over concatenation |
| Dashboard.TotalAdminsGrows | js/admin-dashboard.js:57-59 | appending a user adds one to the admin count exactly when that user's flag is true |
| Dashboard.SumRoomsAppend | js/admin-dashboard.js:89-93 | summing rooms distributes over concatenation |
| Dashboard.RoomsBookedGrows | js/admin-dashboard.js:79-93 | a new booking adds its rooms and one to the counts exactly when it is confirmed |
| Dashboard.RoomsAtLeastBookings | js/admin-dashboard.js:79-93 | booked rooms are at least the number of confirmed bookings |
| Dashboard.AvailableCanBeNegative | js/admin-dashboard.js:96-97 | available rooms go below zero when more than 50 are booked; status matching is case sensitive |
| Dashboard.FetchStats | js/admin-dashboard.js:40-105 | user figures appear exactly when the users fetch answers; booking figures appear exactly when that fetch did not throw and the bookings fetch answers |
| SignupForm.EmailMatchesShape | js/signup.js:33-34 | the e-mail check accepts exactly non-empty, space-free, @-free parts around "@" and a later "." |
| SignupForm.ShapeMatches | js/signup.js:33-34 | any word@word.word passes the e-mail check |
| SignupForm.MatchesShape | js/signup.js:33-34 | any string the e-mail check accepts splits as word@word.word |
| SignupForm.CheckPersonal | js/signup.js:12-29 | flags an empty trimmed first or last name and an empty date of birth |
| SignupForm.CheckContact | js/signup.js:31-43 | flags an empty or malformed trimmed e-mail and a trimmed contact number shorter than 10 UTF-16 units |
| SignupForm.CheckAccount | js/signup.js:45-68 | flags a trimmed username shorter than 4 and a password shorter than 8 UTF-16 units, a mismatched confirmation and unchecked terms |
| SignupForm.Validate | js/signup.js:2-71 | a field is flagged exactly when its rule fails (lengths in UTF-16 units), and the form is valid exactly when no rule fails |
| SignupForm.FlagsExactly | js/signup.js:10-68 | the nine flags are exactly the failing rules, and none is set exactly when every rule holds |
| SignupForm.AcceptedFormPassesServerChecks | js/signup.js:71-82 | a form the page accepts, with a username and password free of astral characters and variation selectors, also passes the server's username, password, name and contact rules |
| SignupForm.AstralPasswordPassesOnlyThePage | js/signup.js:53 | without that proviso page and server disagree: "abcdef" followed by an emoji is 8 units long for the page and 7 characters for the server, which refuses it |
| SignupForm.EmojiPasswordLengths | js/signup.js:53 | "abcdef" followed by an emoji is 8 UTF-16 units long and 7 characters for the validator |
| AdminBookings.NumOr | js/admin-bookings.js:124 | a present non-zero number is used, anything else falls back |
| AdminBookings.StatusTag | js/admin-bookings.js:109-121 | the badge follows the lower-cased status; anything other than confirmed, completed or cancelled shows as pending |
| AdminBookings.TagsAgreeWithServer | js/admin-bookings.js:109-121 | every server status gets its own badge, and only Pending gets a confirm button |
| AdminBookings.ConfirmOnlyForPending | js/admin-bookings.js:140-147 | a row with a confirm button shows the pending badge |
| AdminBookings.UnknownStatusHasNoConfirm | js/admin-bookings.js:109-147 | every status outside pending, confirmed, completed and cancelled, in any case or missing, shows as pending but gets no confirm button |
| AdminBookings.UnknownStatusExamples | js/admin-bookings.js:109 | "On hold" and a missing status are such statuses |
| AdminBookings.ToLowerIdempotent | js/admin-bookings.js:109 | lower-casing twice equals lower-casing once |
| AdminBookings.StatusCaseInsensitive | js/admin-bookings.js:109 | badge and confirm button ignore the case of the status |
| AdminBookings.CountLabel | js/admin-bookings.js:73-85 | the label reads "(n reservations)" with n the list length, 0 for a missing list |
| AdminBookings.CountLabelReadsBack | js/admin-bookings.js:84 | parsing the label after its parenthesis gives back the count |
| AdminBookings.NumberAfterParen | js/admin-bookings.js:84 | a number printed after "(" and before a non-digit reads back after the parenthesis |
| AdminBookings.IdAttribute | js/admin-bookings.js:141 | the database id when set, else the plain id, else "undefined" |
| AdminBookings.RowOf | js/admin-bookings.js:108-150 | rows are numbered from 1; badge from the status; confirm button exactly for pending, on the same id as delete; escaped guest name; rooms never 0; total with its fallbacks |
| AdminBookings.GuestNameReadsBack | js/admin-bookings.js:123 | the shown guest name decodes back to the stored name and contains no angle bracket |
| AdminBookings.QuoteSurvivesSanitising | js/admin-bookings.js:141 | a double quote passes the sanitiser unchanged into the guest-name attribute |
| AdminBookings.DisplayBookings | js/admin-bookings.js:70-162 | the count label, no rows for a missing list, and one row per booking in order |
| AdminBookings.RenderRows | js/admin-bookings.js:108-151 | the `forEach` yields exactly one row per booking, numbered in list order |
| AdminBookings.ConfirmRowsArePending | js/admin-bookings.js:140-147 | a displayed row has a confirm button exactly when its status is pending in any case |
| AdminBookings.BearerHeader | js/admin-bookings.js:198 | the header is "Bearer " and the token, or "Bearer null" without one |
| AdminBookings.ConfirmBooking | js/admin-bookings.js:187-202 | only when accepted, a PUT to the booking's status path with status Confirmed and the admin token |
| AdminBookings.DeleteBooking | js/admin-bookings.js:219-233 | only when accepted, a DELETE of the booking's path with no body and the admin token |
| AdminBookings.ConfirmPayloadAccepted | js/admin-bookings.js:201 | the status sent on confirm is one the server's status check accepts |
| AdminBookings.HeaderCarriesToken | js/admin-bookings.js:198 | the server's token extraction recovers the admin token from the header the page sends |

## Left out

- models/User.js is not part of this model: password hashing, the user pre-save hook and database unique indexes. Password comparison is a parameter of login.
- Database ids are strings, and fresh ids and clocks are parameters. A malformed id, which makes the database raise a cast error (500, or 401 inside the gate's catch), is not modelled.
- GET /profile and GET /users in routes/auth.js are outside the modelled core. `populate` of the user on booking lists is also outside it.
- Bookings.BookingStore.SetStatus: the receipt is generated and its path saved in one step. A failing second save after generation, which leaves the reply with a path the store does not keep, is not modelled. PDF rendering, the file system and e-mail are not modelled either.
- Bookings.BookingStore.Create: `new Date(...)` parsing is the ISO-8601 validator plus a millisecond value in the request. Date arithmetic on other formats is not modelled.
- Accounts.UserStore.UpdateUser: Mongoose `runValidators` on update and fields outside the update whitelist are not modelled. The request carries only the named fields.
- Accounts.UserStore.Signup: the e-mail validator, `normalizeEmail` and the ISO-8601 check are parameters, not re-implementations.
- Register: when the username belongs to a user with another e-mail and the e-mail to a different user, which message the database query returns depends on document order. The contract allows either message in that case only. The same holds for Revise.
- ValidatorLength follows validator.js 13, which counts a surrogate pair as one character and does not count U+FE0E or U+FE0F. The validator library itself is not part of this model.
- Common.ParseInt: only decimal input is modelled. Hexadecimal prefixes, values beyond 2^53 and NaN arithmetic are not.
- Common.ToLower: ASCII only. The source's `toLowerCase` also folds non-ASCII letters.
- ClientSecurity: storage holds strings. JSON parsing of the stored user record keeps the record's string fields only; a JSON value that is neither an object nor null is read as a record without fields.
- ClientSecurity.SanitizeFormData: key order of the rebuilt object is not modelled, because maps have none.
- ClientSecurity, ClientBooking and AdminBookings: the DOM, alerts, redirects, locale formatting of dates and prices, and the handling of fetch responses after submit, confirm and delete are not modelled. Date inputs are parsed by a parameter.
- Dashboard.FetchStats: network failures are a three-way outcome (answered, refused, threw). The DOM updates are not modelled.
- SignupForm: the response handling after the signup request (storing the token, redirecting) is not modelled.
- The server entry point mounts only the account routes. The booking routes are modelled as written, regardless of whether they are mounted.
