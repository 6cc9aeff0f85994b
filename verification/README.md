# PinolRent API: a verified model

The PinolRent API rents cars: sellers list them, buyers book and pay, sellers accept or reject, administrators confirm payments. It is a Go server over one SQLite database. This project models its state-changing core in Dafny and proves what that core promises over whole runs.

## What is modelled

**The booking machine, at two levels.** `Store` holds the tables and the SQL statements, `Booking` each request as one atomic step with its guards in the handler's order. `Scripts` gives every handler as a sequence of statements with its decisions. `Handlers` is the handlers in imperative form on a connection that may fail at any statement: each is held to the statements of its script and proved equal to its step. `Tx` is the transaction wrapper. `Transactions` runs any number of them at once: authentication reads outside a transaction, a writer lock taken at `BEGIN IMMEDIATE`, private writes, and commit, rollback or a crash at any point. Every schedule is shown to be a serial run of whole requests, and `Server` shows that the commit orders of schedules are exactly the runs in which every request succeeds and is vouched for by what was read of its account before.

**What runs keep.** Over `After(events)`, the committed tables after any run: `Rows` (references, one payment per reservation), `Lifecycle` (one reservation and its payment as an automaton that every run projects to), `Trails` (audit log and notifications), `Effects` (what each request writes, field by field), `Refusals` (when each succeeds, and that its errors are true), `Availability` (no double booking, catalog, released dates, inactive cars), `Joins` (views and totals), `Accounts` (phones, suspensions, administrators). `Reachable` shows that the automaton is exact: everything it allows is done by some run of authenticated requests. `Races` gives the schedules that break two promises of `Accounts`, each of which is stated with its exact condition.

**Calendar arithmetic** (`Calendar`). Text order, Go instants with saturating durations, and day numbers, shown to agree. Dates are full-date of section 5.6 of RFC 3339, with the limits of section 5.7 and the leap years of Appendix C.

**Sessions** (`Sessions`, `SessionRuns`, `SessionRequests`, `SessionTiming`, `SessionStamps`, `SessionVerdicts`). Access and refresh tokens, logout, single-use rotation with replay detection, `token_valid_after`, and the collector of revoked tokens, one statement at a time. Expiry is section 4.1.4 of RFC 7519, `iat` section 4.1.6, `jti` section 4.1.7; rotation with replay revocation is the scheme of section 4.14.2 of RFC 9700.

**The rate limiter** (`RateLimit`, `RateLimitExact`), with the `x/time/rate` bucket as an exact token bucket over the reals, and **two input cores**: `Phone` (clause 6.1 of ITU-T E.164) and `ClientIp`.

## Assumptions

- Runs start from the empty migrated database; rows from before the current checks, and edits by hand, are not covered.
- AUTOINCREMENT ids are never reused and every `jti` is new.
- SQLite has one writer at a time after `BEGIN IMMEDIATE`, keeps a transaction's writes private until COMMIT, runs each statement atomically and enforces primary keys and UNIQUE. A single statement outside a transaction (`UpdateMe`, `CreateCar`) is a transaction of its own.
- `adminIDs` has no ORDER BY; the model lists administrators by ascending id, which fixes only the order of notes.
- Today, clocks, random identifiers and the administrators' allow-list are inputs of the steps. The clock may step anywhere except where a row below says it does not go back.
- `jwt`, `time`, `net` and SQLite are not part of this model, only what is said about them here.

## Model

| member | source | states |
|---|---|---|
| Transactions.SchedulesAreSerial | internal/db/tx.go:12-42 | For every interleaving of any number of clients, with errors, panics, failed COMMITs and crashes anywhere, the committed tables are those of the successful requests taken whole in commit order, each of which succeeds in its place. |
| Transactions.RefusalsAreSerial | internal/handlers/reservations.go:66-86 | Every error a role check or a handler answers is the one the whole request gives on the tables committed when it is answered. (A transaction lost to a driver error or a panic answers 500 and is not among them.) |
| Transactions.DenialsAreJustified | internal/auth/auth.go:404-460 | Every account `RequireAuth` turns away did not exist, or was suspended, in the committed tables its row was read from. |
| Transactions.GuardsStillHold | internal/db/tx.go:19-40 | An open transaction is the only one, and the tables its guards read are still the committed ones, up to and at its COMMIT. |
| Transactions.OnlyCommitsMove | internal/db/tx.go:37-41 | The committed tables change only at the COMMIT of a callback that returned nil, and then by exactly that whole request. |
| Transactions.LogsAreHonest | internal/auth/auth.go:404-460 | Every committed request succeeds in its place and came from an account that existed and was not suspended when its row was read, with the roles it held when they were read, in states committed before. |
| Server.LogsAreExactly | internal/db/tx.go:12-42 | The commit orders of schedules are exactly the honest logs: requests that succeed one after another, each with reads of its account made in states committed before. |
| Server.NoDoubleBooking | docs/architecture.md:110-116 | Under every schedule at most one reservation that is pending, accepted or confirmed holds a car on a calendar day. |
| Server.CommittedTablesAgree | docs/architecture.md:96-110 | Under every schedule a reservation's status, its payment and its audit entries agree, its view has one row, and the approved total is over the confirmed reservations. |
| Server.SignersHeldTheRole | internal/auth/auth.go:469-478 | Under every schedule whoever signed a transition of a reservation held the role it demands in some committed state. |
| Server.SendersHeldTheRole | internal/handlers/routes.go:36-84 | Under every schedule whoever sent a request that committed held, in a state committed before it, the role its route demands: buyer to book, cancel and pay, seller to list, accept and reject, administrator for the rest. |
| Server.OverridersHeldAdmin | internal/handlers/admin_audit.go:30-48 | Under every schedule every entry about an account or a car is signed by an account that sent that very request and held the administrator role in some committed state. |
| Server.AnswersAreTrue | internal/handlers/reservations.go:29-104 | Under every schedule every error a role check or a handler answers is true of the request and of the tables committed when it is answered. |
| ScriptProofs.ScriptIsPerform | internal/handlers/reservations.go:63-104 | For every request on every state, the handler's statements run without interruption end with the outcome of the atomic step, refusals included. |
| Tx.Database.WithImmediateTx | internal/db/tx.go:12-42 | The transaction loses the request exactly when there is no connection or lock, when a statement fails or the callback panics before its last statement is through, or when a finished callback's COMMIT fails; then the committed tables stay. Otherwise they move by the whole request, or stay on its error. Either way no transaction stays open on the connection. |
| Handlers.Conn.CreateReservation | internal/handlers/reservations.go:63-104 | Runs exactly the statements of `CreateScript` and, if none fails, leaves the tables and the error of the atomic step `Booking.Create`; a failed statement ends it with a server error at that place. |
| Handlers.Conn.CancelReservation | internal/handlers/reservations.go:198-239 | Statements of `CancelScript`, outcome `Booking.Cancel`: pending, no payment recorded, by the buyer, with its audit entry and note. |
| Handlers.Conn.AcceptReservation | internal/handlers/seller_review.go:27-60 | Statements of `AcceptScript`, outcome `Booking.Accept`: a pending request of the owner's car. |
| Handlers.Conn.RejectReservation | internal/handlers/seller_review.go:92-133 | Statements of `RejectScript`, outcome `Booking.Reject`: the pending payment is rejected alongside. |
| Handlers.Conn.AdminConfirmReservation | internal/handlers/admin_confirm.go:26-74 | Statements of `ConfirmScript`, outcome `Booking.Confirm`: accepted with a pending payment, approved together. |
| Handlers.Conn.AdminRequestCorrection | internal/handlers/admin_confirm.go:103-134 | Statements of `CorrectScript`, outcome `Booking.Correct`: the payment goes back, the reservation stays accepted. |
| Handlers.Conn.RecordPayment | internal/handlers/payments.go:52-117 | Statements of `PayScript`, outcome `Booking.Pay`: the first payment, or the resubmission of a rejected one on an accepted reservation, replacing method and proof. |
| Handlers.Conn.ApplyCarPatch | internal/handlers/cars.go:266-331 | Statements of `PatchScript` up to what its caller adds, outcome `Booking.ApplyPatch`: current values merged with the patch, with the owner restriction and the deactivation guard. |
| Handlers.Conn.Merge | internal/handlers/cars.go:284-298 | Overwriting the current values one by one where the patch has a value gives the patched row. |
| Handlers.Conn.PatchCar | internal/handlers/cars.go:338-373 | The seller's patch is restricted to own cars and guarded by today. |
| Handlers.Conn.AdminPatchCar | internal/handlers/admin_cars.go:71-101 | The administrator's patch reaches any car, skips the guard and is audited. |
| Handlers.Conn.DropCar | internal/handlers/cars.go:379-424 | Statements of `DropScript`, outcome `Booking.Drop`: own car, no reservation ever. |
| Handlers.Conn.AdminDropCar | internal/handlers/admin_cars.go:106-147 | An administrator's delete has the same history guard and is audited. |
| Handlers.Conn.NotifyUsers | internal/handlers/notifications.go:18-32 | The loop with its seen set inserts one note per distinct recipient, in order of first place, one statement each. |
| Handlers.Conn.AdminIDs | internal/handlers/notifications.go:36-51 | Returns the administrators of the tables and changes nothing. |
| Handlers.Conn.AuditAction | internal/handlers/admin_audit.go:37-48 | Appends one entry, and refuses a missing actor. |
| Handlers.Conn.Register | internal/handlers/auth.go:148-205 | A new account has its phone and the roles it earns, one row each; a duplicate email answers alike and changes nothing. |
| Handlers.Conn.BecomeSeller | internal/handlers/auth.go:229-250 | Stores a non-empty phone and grants seller unless the caller had it at request start. |
| Handlers.Conn.UpdateMe | internal/handlers/auth.go:56-71 | Stores the normalised phone, refusing an empty one to a seller. |
| Handlers.Conn.AdminPatchUser | internal/handlers/admin_users.go:88-137 | Suspends or lifts a suspension, auditing only a change, never of oneself. |
| Handlers.Conn.AdminPatchUserRoles | internal/handlers/admin_users.go:175-241 | Grants seller only with a phone, revokes it only without bookings ahead, auditing only a change. |
| Rows.AfterRowsOk | internal/db/migrations/00001_init.sql:10-37 | In every reachable state ids are below their counters, references resolve, prices are in range and a reservation has at most one payment. |
| Lifecycle.StepIsMove | docs/architecture.md:101-110 | Every request makes on every reservation one move of the automaton or none; without a move neither row nor payment changes, and a move changes only the status of the row. |
| Lifecycle.RunsProject | docs/architecture.md:101-110 | Seen from one reservation, every run of the whole system is a run of the automaton. |
| Lifecycle.StatusesAreCoupled | internal/handlers/admin_confirm.go:55-60 | Reservation and payment are always in one of nine combinations; a payment is approved exactly when its reservation is confirmed. |
| Lifecycle.TerminalIsFrozen | docs/architecture.md:110 | After confirmed, rejected or cancelled neither the row nor its payment ever changes, however the run goes on. |
| Lifecycle.AtMostTwoChanges | docs/architecture.md:101-110 | A reservation changes status at most twice, and twice exactly when it is confirmed. |
| Refusals.TransitionExactly | docs/architecture.md:101-110 | A request about a reservation succeeds exactly when the caller has its role and is its party, and the automaton allows its move from where the reservation stands. |
| Refusals.ListingExactly | internal/handlers/cars.go:338-373 | A listing is created and changed exactly by its seller or, changes, by an administrator, at a price from 0 to 100,000,000, and deactivated by its seller only with nothing left to run. |
| Refusals.AccountExactly | internal/handlers/admin_users.go:88-241 | Own phones change exactly when they normalise, not to blank for a seller; others are suspended by administrators only and never by themselves; the seller role is granted only to an account with a phone and revoked only with nothing left to run. |
| Refusals.ErrorsAreTrue | internal/handlers/payments.go:52-117 | Every error a request is answered with is true of it and of the tables: dates, days, prices, rows that are missing or not the caller's, statuses, payments, accounts. |
| Refusals.ForeignIsMissing | docs/architecture.md:139-141 | Who touches a reservation or a listing that is not theirs is answered exactly as if it did not exist. |
| Effects.RolesAreDemanded | internal/handlers/routes.go:36-84 | A request that succeeds was sent with the role its route demands. |
| Effects.BookingIsStored | internal/handlers/reservations.go:88-94 | A new booking is the caller's, of that car, for those dates, and pending. |
| Effects.PaymentIsLastSent | internal/handlers/payments.go:52-117 | In every reachable state a reservation has a payment exactly when one was sent for it, with the method and proof its buyer sent last. |
| Effects.CarsComeAndGo | internal/handlers/cars.go:141-175 | A car appears only when it is listed, active and the lister's own, with what was sent; it goes exactly when a deletion of it succeeds. |
| Effects.CarKeepsButPatch | internal/handlers/cars.go:284-331 | A car's row changes only by a patch of it, which writes the fields it gives and no other, and never the owner. |
| Effects.CarsAreListed | internal/handlers/cars.go:141-175 | In every reachable state every car was listed by its owner as a seller. |
| Effects.AccountsAppear | internal/handlers/auth.go:148-205 | An account appears only by registration under an email nobody has, with its normalised phone, a buyer, a seller exactly with a phone, an administrator exactly on the allow-list, and not suspended. |
| Effects.AccountKeepsBut | internal/handlers/admin_users.go:88-241 | Emails and buyer roles never change; phones only by one's own request; seller roles only by one's own promotion or an administrator; administrator roles only by a reload, to what it lists; suspensions only by an administrator. |
| Effects.AccountsAreDistinct | internal/db/migrations/00001_init.sql:4-4 | In every reachable state no two accounts share an email and every account is a buyer. |
| Effects.RegistrationTellsNothing | docs/architecture.md:139-141 | A registration is answered alike whatever accounts there are. |
| Reachable.MovesAreExactly | docs/architecture.md:101-110 | A sequence of moves is made by some run of requests one at a time exactly when the automaton allows it. |
| Reachable.PairsAreExactly | internal/handlers/payments.go:66-104 | The reachable pairs of statuses are exactly the nine coupled ones. |
| Reachable.WordsAreExactly | internal/handlers/admin_audit.go:16-27 | The words the audit log can hold about a reservation are exactly nothing, cancel, reject, or accept request_correction* [confirm]. |
| Reachable.OverrideLeavesBookingAhead | internal/handlers/admin_cars.go:84-93 | A concrete run: the administrator's override leaves an inactive car with a booking ahead. |
| Trails.LogTellsStatus | internal/handlers/seller_review.go:45-54 | The entries about a reservation form such a word, and folding the word gives its status. |
| Trails.LogIsItsMoves | internal/handlers/reservations.go:229-235 | The log of a reservation is what its moves log, no more and no less. |
| Trails.EntriesAreSigned | internal/handlers/seller_review.go:110-123 | Each entry is signed by the party its transition demands, who sent that very request with its role: the buyer to cancel, the owner to accept or reject, an administrator to confirm or send back. |
| Trails.OverridesAreSigned | internal/handlers/admin_users.go:88-241 | Each entry about an account or a car is signed by the administrator who sent the request that does just that to it. |
| Trails.OverridesAreLogged | internal/handlers/admin_cars.go:84-93 | Suspensions and role changes are logged exactly when they change something, administrators' patches and deletions of cars always, and nothing else about accounts and cars is. |
| Trails.StepNotifies | internal/handlers/notifications.go:18-32 | Each transition leaves exactly one note of its kind for each member of its documented audience, and nothing else leaves any. |
| Trails.NotesAreSentRight | internal/handlers/admin_confirm.go:126-131 | In every reachable state a one-off note was sent at most once to anyone and exactly once to the parties; correction requests equal the logged ones; a resubmission is announced at most once per request. |
| Availability.OverlapIsSharedDay | internal/db/db.go:97-99 | The overlap test on text holds exactly when some calendar day lies in both ranges. |
| Availability.StoredDatesAreOk | internal/handlers/reservations.go:29-59 | Every stored reservation has canonical dates in order and spans 1 to 30 days. |
| Availability.OneBookingPerDay | internal/handlers/reservations.go:77-94 | In every reachable state at most one reservation that is pending, accepted or confirmed holds a car on a calendar day. |
| Availability.BookableExactly | internal/handlers/reservations.go:29-104 | A booking succeeds exactly when the caller is a buyer, the dates are real, in order, from today on and at most 30 days, the car is listed and active, and no pending, accepted or confirmed reservation holds any of the days. |
| Availability.CatalogExactly | internal/handlers/cars.go:31-61 | The catalog offers all active cars without dates, and for dates in order exactly those that no pending, accepted or confirmed reservation holds on any of the days; other dates it refuses. |
| Availability.OfferedIsBookable | internal/handlers/cars.go:31-61 | For any range, a booking succeeds exactly for the cars the catalog offers, when the dates are neither past nor too long and the caller is a buyer. |
| Availability.OfferedIsCreatable | internal/handlers/cars.go:31-61 | For any range the catalog accepts, past and long ones too, it offers exactly the cars whose booking passes every guard after the checks on the dates. |
| Availability.CatalogRefusals | internal/handlers/cars.go:38-52 | The catalog refuses a range for a reason a booking of it is refused for too; ranges it accepts can be refused only as past or too long. |
| Availability.ReleasedDatesAreFree | internal/handlers/reservations.go:229-232 | Right after a cancel or reject no day of the released dates is held by any reservation, so every range within them can be booked. |
| Availability.InactiveCarsHaveNothingAhead | internal/handlers/cars.go:305-315 | In any run no inactive car has at any moment a pending, accepted or confirmed reservation that runs on the day or later exactly when no committed deactivation hits a car with such a reservation. |
| Availability.StrandingStep | internal/handlers/cars.go:298-331 | One request leaves an inactive car with a reservation ahead exactly when it is a committed deactivation of a car that runs on the day; nothing else does. |
| Availability.OnlyOverridesStrand | internal/handlers/admin_cars.go:84-93 | On a day no seller's deactivation is dated after, that happens exactly when an administrator's override deactivates a car that runs on the day. |
| Availability.DeactivationExactly | internal/handlers/cars.go:305-315 | A seller can deactivate its car exactly when none of its pending, accepted or confirmed reservations runs today or later, counted in days. |
| Availability.RevocationExactly | internal/handlers/admin_users.go:206-227 | The seller role can be revoked exactly when no pending, accepted or confirmed reservation of any of the account's cars runs today or later. |
| Availability.DeletionExactly | internal/handlers/cars.go:403-413 | A listing can be deleted, by its seller or an administrator, exactly when no reservation of any status refers to it. |
| Joins.JoinsAreLossless | internal/handlers/reservations_query.go:19-26 | In every reachable state the view has exactly one row per reservation, with its car and its payment if any, and no other row. |
| Joins.TotalIsOverConfirmed | internal/handlers/admin_stats.go:38-42 | The approved total is the sum over exactly the confirmed reservations of price times inclusive days, and fits 64 bits for three billion reservations. |
| Joins.AmountIsBounded | internal/handlers/cars_validate.go:25-33 | A reservation's amount is its car's price times its inclusive days, at most 3,000,000,000. |
| Accounts.StoredPhonesAreCanonical | internal/db/migrations/00006_phone.sql:4-5 | In every reachable state every phone is empty or canonical E.164 and meets the CHECK. |
| Accounts.SellersHavePhones | internal/handlers/auth.go:56-67 | In any run, interleaved or not, every seller has a phone at every moment exactly when no update blanks the phone of an account made a seller since that update read its roles. |
| Accounts.ClearingStep | internal/handlers/auth.go:56-71 | Where every seller has a phone, one request costs a seller its phone exactly when it is such an update. |
| Accounts.LogDecidesSuspension | internal/handlers/admin_users.go:105-137 | Suspend and unsuspend entries of an account alternate from a suspension on, and the last one tells whether it is suspended. |
| Accounts.SomeoneCanUnsuspend | internal/handlers/admin_users.go:78-91 | In any run a platform with administrators has at every moment one who is not suspended exactly when no committed suspension hits the last of them and no reload of the allow-list names suspended accounts only. |
| Accounts.SuspensionExactly | internal/handlers/admin_users.go:78-91 | On an administered platform a suspension leaves nobody in good standing exactly when it suspends the last one; then its sender is no administrator in good standing any more. |
| Accounts.ReloadExactly | internal/auth/admin.go:26-63 | Reloading the allow-list leaves an administrator in good standing exactly when it names an account that is not suspended. |
| Accounts.StandingStep | internal/handlers/admin_users.go:88-137 | One request ends the government of the platform exactly when it is such a suspension or reload. |
| Accounts.OneAtATimeIsUpToDate | internal/auth/auth.go:404-460 | With requests taken one at a time no such phone update occurs, and without reloads no such suspension. |
| Races.ClearingRace | internal/handlers/auth.go:64-72 | For any phones, a schedule that ends with a seller without one: the update read the roles before the promotion committed. |
| Races.MutualSuspension | internal/handlers/admin_users.go:88-137 | A schedule in which two administrators, authenticated before either commits, suspend each other and nobody is left to lift it. |
| Calendar.ParseDateIsCanonical | internal/handlers/dates.go:13-22 | parseDate accepts exactly the formatted dates, formatting gives the text back, and its round-trip check never refuses what time.Parse accepts. |
| Calendar.ParseDateExactly | internal/handlers/dates.go:13-22 | parseDate accepts exactly four digits, two and two between hyphens that name a day that exists, and reads their numbers. |
| Calendar.ValidExactly | internal/handlers/dates.go:13-22 | The days that exist are those before the first of the next month by the closed formula of `CivilDay`; an instant is 86,400 seconds per day of it since 1970-01-01. |
| Calendar.NextDayIsNextNumber | internal/handlers/admin_stats.go:38-42 | The calendar's next day has the next day number, over every month and year end. |
| Calendar.DayNumberIsCivil | internal/handlers/admin_stats.go:38-42 | The day number, summed from month lengths, is a closed formula without them. |
| Calendar.TextOrderIsDayOrder | internal/handlers/reservations.go:52-59 | On canonical dates text order is the order of days, strict and not. |
| Calendar.CapIsThirtyInclusiveDays | internal/handlers/reservations.go:46-51 | The duration test refuses exactly spans of more than 30 inclusive days, also where the int64 duration saturates. |
| Sessions.Auth.Revoke | internal/auth/auth.go:196-201 | INSERT OR IGNORE: an earlier row for the jti stays. |
| Sessions.Auth.RevokeFromRequest | internal/auth/auth.go:209-222 | Logout revokes the jti of any access token that parses, whatever the account's standing. |
| Sessions.Auth.GCRevoked | internal/auth/auth.go:228-231 | Drops exactly the rows whose second of expiry is over. |
| Sessions.Auth.ClaimJTI | internal/auth/auth.go:371-382 | Succeeds exactly when the jti has no row, and then inserts it. |
| Sessions.Auth.InvalidateUserTokens | internal/auth/auth.go:284-288 | Stamps that account and no other. |
| Sessions.Auth.RequireAuth | internal/auth/auth.go:404-460 | The verdict on a bearer token: parsed, revoked, unknown, superseded, suspended, in that order; it passes exactly when none of these is against it. |
| Sessions.Auth.RotateRefresh | internal/auth/auth.go:303-357 | Rotation taken whole: the claim, the replay stamp and the new pair as `Sessions.Rotated`; a pair comes exactly from an unexpired, unconsumed refresh token of an account not suspended and not stamped since. |
| Sessions.ReplayRaisesTheStamp | internal/auth/auth.go:325-346 | A replay strictly raises the stamp above its old value and the token's iat wherever the clock stands, superseding all siblings. |
| SessionRuns.CollectionIsUnobservable | internal/auth/auth.go:228-231 | On a clock that does not go back, in every interleaving every issued token gets the same answers from the collected table as from one that never forgets. |
| SessionRuns.DeadTokensStayDead | internal/auth/auth.go:395-430 | A logged-out access token or consumed refresh token is never accepted again. |
| SessionVerdicts.BearerExactly | internal/auth/auth.go:404-460 | In every run a bearer token passes exactly when it is an access token less than 15 minutes old, never logged out, not older than its account's stamp, and the last suspension of its account is lifted; each other verdict has its exact case too. |
| SessionVerdicts.RotationExactly | internal/auth/auth.go:303-334 | A refresh token passes rotation exactly when it is less than 7 days old, not older than its account's stamp, its account not suspended, and not consumed; each other verdict has its exact case. |
| SessionVerdicts.PresentersExactly | internal/auth/auth.go:303-324 | A presenter starts exactly with an unexpired refresh token and gets past the account checks exactly when no stamp and no suspension in force is against it. |
| SessionVerdicts.IssuesExactly | internal/auth/auth.go:92-110 | Tokens are issued only at a login, an access and a refresh token, and at a rotation's two signings, for that account, dated now, for 900 and 604,800 seconds. |
| SessionVerdicts.LogoutIsFinal | internal/auth/auth.go:209-222 | A logout with a token that parses ends it for good, whatever its account's standing. |
| SessionVerdicts.PasswordChangeEnds | internal/handlers/auth.go:112-117 | A password change ends every session of the account from before its second. |
| SessionVerdicts.ReplayEnds | internal/auth/auth.go:334-346 | So does a replay once its stamp is written, for tokens from before the clock's second and for the replayed token and its siblings. |
| SessionVerdicts.CollectorExactly | internal/auth/auth.go:228-231 | After a collection the table holds exactly the dead tokens whose exp second is not over. |
| SessionRuns.TimelyClaimIsFirst | internal/auth/auth.go:371-382 | A claim made by the token's exp second meets the primary key exactly when the token was consumed before. |
| SessionRuns.AtMostOnePairPerToken | internal/auth/auth.go:303-357 | In every interleaving with timely claims a refresh token mints at most one pair; `SessionTiming` says exactly when. |
| SessionRuns.SessionsNeverOutnumberLogins | internal/handlers/auth.go:343-353 | In every interleaving with timely claims a user's unconsumed refresh tokens never outnumber its logins; `SessionTiming.SessionsCoveredExactly` is the exact form. |
| SessionRequests.AloneIsRotated | internal/auth/auth.go:303-357 | The statement-level presenter left alone is `Sessions.Rotated`. |
| SessionRequests.ServeKeepsStamps | internal/handlers/auth.go:112-117 | With requests one at a time on a clock that does not go back no request lowers a stamp. |
| SessionRequests.SupersededStaysSuperseded | internal/auth/auth.go:295-297 | In such runs a superseded token never revives. |
| SessionRequests.LateClaimMintsTwice | internal/auth/auth.go:228-231 | A concrete run: a claim made after the exp second, behind the collector, mints a second pair from one token. |
| SessionTiming.ConsumedOnceExactly | internal/auth/auth.go:371-382 | In any run, whatever its timing, every refresh token is consumed at most once exactly when no claim is made for a consumed token whose row the collector has dropped. |
| SessionTiming.SingleUseExactly | internal/auth/auth.go:228-231 | All runs whose claims come at most `late` seconds after the exp second mint at most one pair per token exactly when `late` is 0. |
| SessionTiming.SessionsCoveredExactly | internal/auth/auth.go:303-357 | All such runs keep every user's unconsumed refresh tokens within its logins exactly when `late` is 0. |
| SessionStamps.RevivingStep | internal/auth/auth.go:284-297 | One step brings a superseded token back exactly when it writes a stamp that reaches back to a token issued before the stamp it overwrites. |
| SessionStamps.SupersededForGoodExactly | internal/auth/auth.go:325-346 | In any interleaving, on a clock that does not go back, superseded tokens stay superseded exactly when no such stamp is written. |
| SessionStamps.LateStampRevives | internal/auth/auth.go:334-346 | A concrete run: a replay's stamp, computed before a password change and written after it, revives a session the change had ended. |
| RateLimit.Limiter.Allow | internal/ratelimit/ratelimit.go:51-67 | Answers and updates the map as `RateLimit.Allowed`. |
| RateLimit.Limiter.Gc | internal/ratelimit/ratelimit.go:69-75 | The loop drops exactly the entries idle for longer than the TTL. |
| RateLimit.Limiter.MaybeGC | internal/ratelimit/ratelimit.go:110-117 | Sweeps only once per interval. |
| RateLimit.EvictionIsUnobservable | internal/ratelimit/ratelimit.go:51-75 | On a clock that does not go back the limiter that evicts gives exactly the answers of the one that never forgets, when an empty bucket fills within the TTL. |
| RateLimit.ServerEvictionIsUnobservable | internal/handlers/router.go:14-19 | So it does for both configured limiters, even if an Allow is stopped for nine minutes between its clock readings. |
| RateLimitExact.UnobservableExactly | internal/ratelimit/ratelimit.go:37-47 | Eviction is unobservable exactly when burst is at most rate times TTL. |
| RateLimit.WindowBound | internal/ratelimit/ratelimit.go:51-75 | When an empty bucket fills within the TTL less the delay within an Allow, on a clock that does not go back, in any window of any run a key is admitted at most burst plus rate times the window, across evictions. |
| RateLimit.ServerWindowBound | internal/handlers/router.go:14-19 | So in any window of t seconds the strict limiter admits a client at most 30 + t/2 times and the standard one 60 + 2t, even if an Allow is stopped for nine minutes. |
| RateLimit.ServerSweepsExactly | internal/ratelimit/ratelimit.go:69-117 | Both configured limiters sweep when a minute has passed since the last sweep, and then forget exactly the keys not seen for ten minutes. |
| RateLimitExact.ServerBurstExactly | internal/handlers/router.go:14-19 | A key without a bucket is admitted at once exactly 30 times by the strict limiter and 60 times by the standard one. |
| RateLimitExact.ServerPacedIsAdmitted | internal/handlers/router.go:14-19 | A client with at most one request every two seconds, or every half second, is never refused, whatever the others do and however often its bucket is evicted. |
| RateLimitExact.WindowBoundExactly | internal/ratelimit/ratelimit.go:37-75 | That bound holds over all windows of all runs exactly when burst is at most rate times TTL. |
| Phone.NormalizePhone | internal/handlers/phone.go:25-66 | The filtering loop and the country completion compute `Phone.Normalize`. |
| Phone.AcceptedIsCanonical | internal/handlers/phone.go:12-14 | An accepted phone is empty, exactly for blank input, or canonical, and meets the CHECK. |
| Phone.NormalizeIsIdempotent | internal/handlers/phone.go:25-66 | Normalising twice is normalising once. |
| Phone.SpellingsAgree | internal/config/config.go:156-181 | For every valid country configuration the national, country-coded and + spellings, separators and all, become one phone, accepted exactly when it has 8 to 15 digits. |
| Phone.PlainNumberExactly | internal/handlers/phone.go:46-66 | A number without separators becomes p exactly when p is a plus, a digit from 1 to 9 and 7 to 14 more, and is the number itself, or the number after a plus (with country code and its length), or after plus and country code (at national length). |
| Phone.SeparatorIsIgnored | internal/handlers/phone.go:34-45 | A space inside, or a hyphen, parenthesis or dot anywhere but before a leading plus, does not matter. |
| Phone.OtherTextIsRefused | internal/handlers/phone.go:25-45 | Any other character, a plus that does not lead, and more than 32 characters are refused. |
| Text.TrimSpaceExactly | internal/handlers/phone.go:26-26 | Trimming takes white space, the 25 code points of the Unicode property, off both ends and all of it. |
| ClientIp.Resolve | internal/ratelimit/ratelimit.go:134-152 | The right-to-left loop computes `ClientIp.ClientKey`, the peer when that is no trusted proxy. |
| ClientIp.KeyExactly | internal/ratelimit/ratelimit.go:134-152 | An untrusted peer is its own key whatever its headers say; behind a trusted one the key is the rightmost entry that names an untrusted address, else the trimmed X-Real-IP, else the peer. |
| ClientIp.LastStopIsRightmost | internal/ratelimit/ratelimit.go:139-146 | The scan answers with the rightmost entry that is neither blank nor a trusted proxy, or finds none. |
| ClientIp.PrependingChangesNothing | internal/ratelimit/ratelimit.go:126-133 | Text put in front of an X-Forwarded-For that has such an entry never changes the key. |
| ClientIp.AppendedAddressWins | internal/ratelimit/ratelimit.go:126-133 | Behind proxies that each append the address they saw, the key is the first untrusted address they recorded. |
| ClientIp.JoinSplits | internal/ratelimit/ratelimit.go:138-138 | Splitting at commas loses nothing. |

## Where a promise needs a condition

The first five fail in some run of the code as it is. The condition given is exact.

- No booking ahead on an inactive car: the guard is on the seller's path only. It is broken exactly when the deliberate administrator override deactivates a car that still has reservations to run (`Availability.OnlyOverridesStrand`); `Reachable.OverrideLeavesBookingAhead` is such a run.
- One pair per refresh token: the token is parsed before the claim, and the collector drops rows of expired tokens. The promise holds exactly when claims are made by the exp second (`SessionTiming.SingleUseExactly`), and in a given run exactly when no claim meets a collected row (`SessionTiming.ConsumedOnceExactly`); `SessionRequests.LateClaimMintsTwice` breaks it.
- A phone for every seller: roles are read before the transaction. It is broken exactly when an account becomes a seller between that read and the commit of an update that blanks its phone (`Accounts.SellersHavePhones`); `Races.ClearingRace` does.
- An administrator left to lift suspensions: nobody suspends themselves, but standing is read before the transaction. It is broken exactly when a sender suspended or demoted meanwhile suspends the last administrator in good standing, or the allow-list is reloaded with suspended accounts only (`Accounts.SomeoneCanUnsuspend`, `Accounts.SuspensionExactly`); `Races.MutualSuspension` does. Requests taken one at a time never do the former (`Accounts.OneAtATimeIsUpToDate`).
- A superseded token that stays so: a stamp is computed before it is written. It is broken exactly when a stamp written late reaches back to a token issued before the stamp it overwrites (`SessionStamps.SupersededForGoodExactly`); `SessionStamps.LateStampRevives` does. Requests taken one at a time never lower a stamp (`SessionRequests.ServeKeepsStamps`).
- Unobservable eviction and the window bound of a limiter: exactly when an empty bucket fills within the TTL (`RateLimitExact`), which both configured limiters do.

## Left out

- Phone.Normalize: lengths count characters where the source counts bytes; the two differ only on text that is refused either way.
- RateLimit.Limiter.Allow: durations are exact reals, not rounded to nanoseconds and float64 tokens as in `x/time/rate`.
- Tx.Database.WithImmediateTx: a ROLLBACK that itself fails, whose error the source drops, is not modelled; nor is a COMMIT that reports an error although it went through.
- Joins.ApprovedTotal: an exact integer sum over day numbers, not SQLite's julianday and the float that `database/sql` scans.
- SessionRuns.Step: a login asks only that the account exists, because its suspension check precedes the signing.
- HTTP: decoding, JSON, status texts, CORS, headers, logging, recovery, timeouts.
- bcrypt, HS256, random jti generation, email, name and URL validation, IP and CIDR parsing: inputs or predicates here.
- Reading and marking notifications (`read_at`), pagination, filters and the administrators' listings: reads with no invariant behind them.
- SQLite's busy timeouts and retries, and the migrations of older data.
- Image uploads, their quota and sweep.
- A seller whose role was revoked can still get bookings, since the cars stay active: nothing is claimed about it.
