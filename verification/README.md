# Booking and worker models

A Dafny model of the stateful parts of the booking API, with proofs about every run
of them: the booking lifecycle with its availability view and cache, the compensation
worker, the webhook worker and the public rate limiter. `dafny verify dfyconfig.toml`
checks everything.

## How the model is built

**Bookings.** `Store` holds the tables (bookings, holds, the confirm-token column,
idempotency keys, the round-robin cursor) of one tenant. `Lifecycle` says for each call
what it answers and which of ten effects it has on the tables; a run is a sequence of
calls with a clock that never goes back, and one call is one step. Whatever row a
`findFirst` with several matches returns is chosen by a parameter of the call (`Pick`),
so every theorem holds for any choice. A write that would break the partial unique index
on active slots, or the unique index on keys, aborts its step. `CachedView` adds the
45-second cache of one process and the keys each call drops. `BookingService.Service` is
the service as it is written, an object whose methods update the tables and the cache in
place, one statement after another; each method is proved to take exactly the step that
`Lifecycle` and `CachedView` specify, so the theorems about runs are theorems about it
(`CacheLaw.TablesIgnoreCache` carries them over to a service with a cache).

The theorems about runs: `Invariants` and `Coherence` (what every reachable state
satisfies, and which status changes occur), `DoubleBooking`, `TilingLaw`, `OneCall`,
`Intruders`, `ConfirmedBookings`, `ConfirmById` (when bookings can and cannot overlap),
`UniqueSlots` (the index handler of createHold is dead code), `Expiry`, `ShortHolds` and
`SweepTold` (lazy and eager expiry), `Tokens`, `Journey` (from the hold to the confirmed
booking, and back), `Slots`, `Offers`, `OfferLimits`, `CacheLaw`, `RoundRobin`, `Occupancy`,
`Acceptance`. What a caller can rely on is told from the fields of the tables, the token and
the request, without the predicates the service is made of: `Credentials` and `Evidence` (what
each change takes and leaves), `Refusals` (which error), `Retries` (the same request again),
`OfferLaw` (what is offered), `Sweeping` and `CacheAge` (the sweep and the cache).
`Counterexamples`, `RevivedConfirms`, `IndexHandler`, `StaleLook`, `SweepHeard`, `StaleCache`,
`ReplayedCancel` and `LostRetries` hold the runs that show which hypotheses cannot be dropped.

**Compensation worker.** `Compensation` is a machine with one program counter per worker,
interleaved at each SQL statement, with selections that may be out of date; a crash also
stands for a database error that makes `tick` give up its batch. `CompensationTick` is the
worker as it is written; its uninterrupted batch is a run of the machine.

**Webhook worker.** `Webhook` interleaves one consumer, any number of overlapping scanner
passes, arrivals and duplicate deliveries at every await. `WebhookService` is the worker
as it is written; its dequeue loop is a run of the machine. `WebhookRules` tells item, scan and
claim from the fields of the jobs.

**Rate limiter.** `RateLimit` is the bucket map and the bounds over request sequences.

## Where the code falls short of what one would expect

Three premises recur below. A run is *disciplined* when no cancel key that was used before is
sent again with a booking that still waits on its hold; it is *tidy* when it is disciplined and
all intervals asked for lie inside one local date. A run is *careful* when, done without any
sweep, no new hold finds a dead row beside a dead one that still waits, and no move finds such a
row over its target that is its twin or stands beside a live one; runs without reschedules are.

- Reviving a dead row skips the overlap query. Over all runs no two live bookings overlap if
  and only if the intervals asked for come from one tiling (`NeverDoubleBookedIff`), and the
  same holds of confirmed bookings (`NeverDoubleConfirmedIff`). The slots of one zone are a
  tiling (`OfferedIsTiling`). Off a tiling, which single calls break the separation can be told from
  the tables and the request (`CallKeepsApartIff`, `CallKeepsConfirmedApartIff`).
- The reschedule transaction looks at a single row over the new interval. It sees a live
  row whatever `findFirst` returns if and only if no stale row stands beside it
  (`OneLookSufficesIff`), and runs reach tables where one does (`StaleLookDoubleBooks`).
- A cancel whose key was used before deletes the hold of whatever booking is named; this is
  the only call that leaves the tables incoherent (`CoherentIff`).
- Confirming by id looks at the age of the booking, not at its hold or at other bookings.
  Over disciplined runs it only confirms unexpired holds if and only if holds last at least 15
  minutes (`ByIdSafeIff`). Over all runs that is the condition for letting no expired hold row
  through (`ByIdHeldIff`); a booking whose hold row a replayed cancel key deleted is confirmed
  for any time to live (`ByIdConfirmsWithoutHold`).
- Confirming by id drops no cache key. Over tidy runs the cache is conservative if and only if
  holds last at least 15 minutes (`ConservativeIff`); over undisciplined runs it is not, for any
  time to live (`ReplayServesTakenSlot`).
- Over careful runs, whether expireHolds has run can be told from answers if and only if holds are
  shorter than 15 minutes (`LazyEqualsEagerIff`). Over other runs a reschedule can tell for any
  time to live (`RescheduleHearsSweep`); exactly which single calls tell can be seen from the tables
  (`TellsIff`, `MoveTellsIff`).
- A slot that is offered can be refused after a reschedule (`OfferedIsRefused`). Over all runs
  it is granted if and only if the row found for the salesperson in turn is no dead one with an
  active twin (`OfferedIsGrantedIff`), and always without reschedules (`OfferedCanBeHeld`).
- A request for a hold that was accepted is answered alike under its key only until another
  customer is given its dead row (`RetryIff`, `TakenOverHoldIsRefused`). A cancellation of a
  booking already canceled is accepted without recording its key, and is refused later when the
  row is held anew (`UnrecordedCancelIsRefused`). Accepted confirmations, moves and cancellations
  that cancel are answered alike for ever, or as long as their token is unexpired where it is tested first.
- The handler for unique-index errors is dead code without reschedules (`IndexesNeverFire`);
  in general it is met exactly when a dead row with an active twin is revived (`ClashIff`), which
  a reschedule makes possible (`HandlerIsLiveAfterReschedule`).
- A compensation worker that is lost while it owns a job leaves the job in `processing` for
  ever, and that is the only loss that breaks the invariant (`LosingAnOwnerIsTheOnlyHarm`,
  `OrphanStaysForever`).
- The backoff between two claims of a compensation job is kept by a single process
  (`ClaimsAreSpaced`). Two processes can claim a job twice at one instant
  (`TwoProcessesClaimAtOnce`); with any number of them a claim is early if and only if the row's
  next run still lies ahead at the claim (`EarlyIff`).
- A slot length of zero or less makes the slot loop endless (`SlotLoopEndsIff`), and a window
  length of zero or less makes the rate limiter let everything through (`NoWindowNoLimit`).

One point is a reading of the code and not a theorem: the in-transaction write of `expired` at
`apps/api/src/services/booking.service.ts:1712-1715` is undone by the exception after it, so
`ConfirmTx` has no such effect; the writes before the transaction stay.

## Model

| member | source | states |
|---|---|---|
| TilingLaw.NeverDoubleBookedIff | apps/api/src/services/booking.service.ts:1047-1145 | over all runs of all calls and any findFirst, no two live bookings of a salesperson overlap if and only if the intervals asked for come from one tiling |
| TilingLaw.NeverDoubleConfirmedIff | apps/api/src/services/booking.service.ts:688-721 | the same for confirmed bookings, over runs with confirmations by id and reschedules |
| TilingLaw.OfferedIsTiling | apps/api/src/services/booking.service.ts:524-541 | the slots of all dates in one zone, whenever and for whomever they are computed, form a tiling |
| TilingLaw.OfferedNeverDoubleBooked | apps/api/src/services/booking.service.ts:989-997 | customers who ask for offered slots of one zone are never double booked |
| DoubleBooking.NeverDoubleBooked | apps/api/src/services/booking.service.ts:1047-1145 | live bookings of one salesperson never overlap if the intervals asked for come from one tiling |
| OneCall.CallKeepsApartIff | apps/api/src/services/booking.service.ts:1065-1126 | for arbitrary intervals, judged from the tables and the request before the call: live bookings stay apart if and only if it is not a new hold for the salesperson in turn, with a dead row there, a live row over it and no active twin, nor a confirmation by id or a move whose look passes with a live row over it |
| OneCall.CallKeepsConfirmedApartIff | apps/api/src/services/booking.service.ts:1990-2020 | likewise for confirmed bookings: only a confirmation by id or a move that passes its tests with a confirmed row over it |
| OneCall.MoveIndexIff | apps/api/prisma/migrations/20250121160000_init/migration.sql:142-144 | a move breaks an index exactly when an active row stands at its target |
| DoubleBooking.EffectKeepsApart | apps/api/src/services/booking.service.ts:1684-1750 | writes that do not intrude keep live bookings apart |
| DoubleBooking.IntrusionOverlaps | apps/api/src/services/booking.service.ts:1074-1106 | a write that intrudes makes two live bookings overlap |
| Intruders.OneLookSufficesIff | apps/api/src/services/booking.service.ts:1990-2009 | the reschedule check sees a live row for every findFirst result if and only if no stale active row overlaps the target beside a live one |
| StaleLook.StaleLookDoubleBooks | apps/api/src/services/booking.service.ts:1990-2009 | for any three different intervals that meet one another, a run without revival in which the look returns a lapsed row and a confirmed booking is moved over a live one |
| Intruders.IntrudersNamed | apps/api/src/services/booking.service.ts:1969-2045 | with holds of 15 minutes or more and over any run, a live booking can be overlaid in three ways only: a revived row, a reschedule past a stale row, or a confirmation by id after a replayed cancel key deleted the booking's hold row |
| Counterexamples.RevivalDoubleBooks | apps/api/src/services/booking.service.ts:1074-1106 | any two different intervals that meet are double booked by three holds, whatever findFirst returns |
| ConfirmedBookings.ConfirmedStayApart | apps/api/src/services/booking.service.ts:1684-1750 | for arbitrary intervals, runs without confirm-by-id and reschedule keep confirmed bookings disjoint |
| ConfirmedBookings.SplitConfirmsExclude | apps/api/src/services/booking.service.ts:1684-1750 | two overlapping confirmations with check and write split cannot both pass when no createHold comes between |
| ConfirmedBookings.HoldStaysSpent | apps/api/src/services/booking.service.ts:2344-2370 | only createHold prolongs a hold that has run out |
| RevivedConfirms.ByIdDoubleConfirms | apps/api/src/services/booking.service.ts:688-721 | any two different intervals that meet end up in two confirmed bookings after seven calls a day before the first, for every time to live and findFirst |
| Invariants.RunKeepsGood | apps/api/prisma/migrations/20250121160000_init/migration.sql:142-144 | both unique indexes hold in every reachable state, every hold belongs to a booking and reaches at most the time to live ahead |
| Invariants.StepKeepsGood | apps/api/src/services/booking.service.ts:1063 | one call keeps that invariant |
| Invariants.DecisionIsLawful | apps/api/src/services/booking.service.ts:1220-1282 | what each call has checked of the tables before each of its writes |
| Invariants.PlacementIsLawful | apps/api/src/services/booking.service.ts:1251-1279 | the allocator writes what one attempt for a salesperson free in the calendar allowed |
| Invariants.OthersStay | apps/api/src/services/booking.service.ts:1407-1413 | a write leaves every other row and its hold as they were, except that a sweep expires the stale ones and deletes their holds |
| Coherence.CoherentIff | apps/api/src/services/booking.service.ts:1816-1829 | every call keeps statuses, holds and token names coherent, except a replayed cancel key that names a waiting booking |
| Coherence.RunIsSound | apps/api/src/services/booking.service.ts:1740-1749 | settled bookings have no hold and no token name, waiting ones have a hold, mailed ones a token name, after every run without that exception |
| Coherence.OnlyIntendedChanges | apps/api/src/services/booking.service.ts:1084-1105 | every status change lies in the intended relation; nothing but a reschedule moves a booking; no row is lost |
| Coherence.EffectFitsCall | apps/api/src/services/booking.service.ts:2358-2366 | which calls can have which effects |
| UniqueSlots.IndexesNeverFire | apps/api/src/services/booking.service.ts:1283-1293 | without reschedules there is one row per slot and per key, and createHold never meets a unique-index error |
| UniqueSlots.RunKeepsSlotUnique | apps/api/src/services/booking.service.ts:1065-1144 | one row of any status per salesperson and interval |
| UniqueSlots.AttemptNeverClashes | apps/api/src/services/booking.service.ts:1221-1227 | an attempt under a new key is refused only because the slot is taken |
| IndexHandler.ClashIff | apps/api/src/services/booking.service.ts:1065-1106 | an attempt under a new key is aborted by a unique index if and only if it revives a dead row that has an active twin at its interval |
| IndexHandler.HandlerIsLiveAfterReschedule | apps/api/src/services/booking.service.ts:1283-1293 | a run with one reschedule, for any two different intervals, reaches such a state, and createHold then answers with a conflict |
| IndexHandler.RescheduleMoves | apps/api/src/services/booking.service.ts:2014-2020 | the tables after an accepted move |
| Expiry.LazyEqualsEager | apps/api/src/services/booking.service.ts:2344-2370 | with holds of 15 minutes or more and over careful runs, reschedules included, a sweep added anywhere changes no later answer, acceptance or computed availability |
| Expiry.LazyEqualsEagerUnmoved | apps/api/src/services/booking.service.ts:2344-2370 | in particular over all runs without reschedules |
| Expiry.SweepsGoUnheard | apps/api/src/services/booking.service.ts:895-900 | with holds of 15 minutes or more callers hear the same from a run and from the run without its sweeps, when the latter is careful |
| Expiry.StepAlike | apps/api/src/services/booking.service.ts:1074-1106 | the bisimulation: any call but a risky one is answered alike by databases that differ in spent rows, and leaves them so related |
| Expiry.SweepAlone | apps/api/src/services/booking.service.ts:2358-2366 | a sweep on one side keeps the relation |
| Expiry.RelatedDecisions | apps/api/src/services/booking.service.ts:1567-1750 | on such databases any call but a risky one is decided alike, or refused by both over a spent row |
| ShortHolds.LazyEqualsEagerIff | apps/api/src/services/booking.service.ts:86-99 | sweeps go unheard in all careful runs if and only if holds last at least 15 minutes |
| SweepHeard.RescheduleHearsSweep | apps/api/src/services/booking.service.ts:1990-2020 | for every time to live and findFirst, a move onto a lapsed hold is refused, and accepted after a sweep |
| SweepTold.TellsIff | apps/api/src/services/booking.service.ts:1065-1106 | on reachable tables, any call but a move is answered alike with and without a sweep just before, if and only if it is neither a hold whose dead row has a stale twin nor a confirmation by id of a stale young booking |
| SweepTold.MoveTellsIff | apps/api/src/services/booking.service.ts:1990-2020 | a move is answered differently for some findFirst if and only if it passes its earlier tests and, over its target, a stale row is its twin and what a sweep leaves could let it pass, or there is no twin and a stale row stands beside a live one |
| SweepTold.TellingIsRisky | apps/api/src/services/booking.service.ts:1990-2020 | careful runs contain no hold and no move that tells |
| Tokens.TokenOutlivesLostHoldsOnly | apps/api/src/services/booking.service.ts:1359-1367 | over any run before and after the mail: a token that passes the exp test of RFC 7519 section 4.1.4 finds the hold of its waiting booking unexpired or gone, and gone is the one reason for which confirming marks the booking expired |
| Tokens.TokenNeverOutlivesHold | apps/api/src/services/booking.service.ts:1397-1413 | and in runs in which no replayed cancel key names a waiting booking the hold is there |
| Tokens.CoveredIsLive | apps/api/src/services/booking.service.ts:1647-1662 | in coherent tables confirming with such a token never marks the booking expired |
| ConfirmById.ByIdHeldIff | apps/api/src/services/booking.service.ts:684-686 | over all runs, confirm-by-id lets no expired hold through if and only if holds last at least 15 minutes; a booking it confirms is live exactly when its hold row is there |
| ConfirmById.ByIdSafeIff | apps/api/src/services/booking.service.ts:684-686 | over runs in which no replayed cancel key names a waiting booking, it only confirms bookings with an unexpired hold if and only if holds last at least 15 minutes |
| ReplayedCancel.ByIdConfirmsWithoutHold | apps/api/src/services/booking.service.ts:1816-1829 | for every time to live, a replayed cancel key leads to a confirmation by id of a booking without a hold row |
| ReplayedCancel.ReplayServesTakenSlot | apps/api/src/services/booking.service.ts:1816-1829 | and to a cached slot that is taken, with every other premise of the cache theorem met |
| ConfirmById.YoungHoldIsLive | apps/api/src/services/booking.service.ts:707-719 | in coherent tables a booking young enough to be confirmed by id has a live hold |
| OneCall.GrantedIff | apps/api/src/services/booking.service.ts:1147-1293 | in every reachable state a hold is granted if and only if its key is known, or the first salesperson in turn whom neither the calendar nor the tables rule out has no dead row with an active twin |
| Acceptance.HoldAcceptedIff | apps/api/src/services/booking.service.ts:1147-1282 | after runs without reschedules: if and only if its key is known or somebody asked for can hold the interval |
| Journey.HoldMailConfirm | apps/api/src/services/booking.service.ts:1321-1750 | with intervals from one tiling, a granted hold mailed under a new key is confirmed by the mailed token under a new key at any instant at which the token is unexpired, whatever calls that do not write the booking come between and after |
| Journey.RunSpares | apps/api/src/services/booking.service.ts:2344-2366 | such calls, sweeps included, leave a booking standing until its hold runs out |
| Journey.CancelUndoesConfirm | apps/api/src/services/booking.service.ts:1831-1842 | with intervals from one tiling, a confirmed booking outlasts whatever calls do not write it, can be canceled under a new key exactly with its token and a day or more ahead, and then leaves its interval to a new hold at once, unless the row found has an active twin |
| Acceptance.ConfirmAcceptedIff | apps/api/src/services/booking.service.ts:1588-1750 | a confirmation is accepted if and only if its token is a genuine verify token of this tenant still before its expiry and it is a replay, or the booking is confirmed, or mailed under that token name with an unspent hold that nothing live overlaps |
| Acceptance.ConfirmTxIff | apps/api/src/services/booking.service.ts:1684-1750 | the confirming transaction by itself, on tables that may have changed since the reads before it: when it writes, what it accepts, and with which error it refuses |
| Acceptance.RescheduleAcceptedIff | apps/api/src/services/booking.service.ts:1906-2020 | a reschedule is accepted if and only if it carries the booking's own unexpired token and is a replay, or the booking is confirmed and a day or more ahead and the interval is its present one or lets it pass |
| Acceptance.ReplaysAreInert | apps/api/src/services/booking.service.ts:1591-1594 | under a known key a call is answered if and only if it passes the tests before the look at the key and finds its booking, and then changes no booking, and no hold unless it is a cancel |
| Credentials.UnprovenIsRefused | apps/api/src/services/booking.service.ts:748-755 | without a genuine, unexpired token of its purpose, tenant and booking a confirmation, a cancellation that is no replay, and a move are refused and change nothing at all |
| Evidence.ChangesIff | apps/api/src/services/booking.service.ts:1567-1842 | for every call and booking: exactly which credentials and state turn the booking canceled, confirmed, mailed or expired |
| Evidence.ChangesLeave | apps/api/src/services/booking.service.ts:1740-1749 | and what is left: the named row with its hold and secret, and no other row or hold changed |
| Evidence.MovedIff | apps/api/src/services/booking.service.ts:1906-2020 | a booking's interval changes exactly by its own unexpired reschedule token with all other tests passed, and to the interval asked for |
| Evidence.HoldLeaves | apps/api/src/services/booking.service.ts:1060-1144 | a granted hold goes to the salesperson in turn, for one time to live, on the dead row found or a new one, under the key of the request |
| Evidence.KnownKeyLeaves | apps/api/src/services/booking.service.ts:1223-1227 | a request under a known key is answered with the booking that has it and changes no booking |
| Evidence.SecretsIff | apps/api/src/services/booking.service.ts:617-621 | the confirm secret comes with the first accepted hold of a booking that has none, never changes, and goes with the confirmation |
| Evidence.ConfirmedWasProven | apps/api/src/services/booking.service.ts:676-686 | after any run a confirmed booking was confirmed by a call that showed its own unexpired token and token name, or within 15 minutes a secret that an earlier hold answered with it had brought |
| Evidence.CanceledWasProven | apps/api/src/services/booking.service.ts:1831-1841 | after any run a canceled booking was canceled by a call with its own unexpired token a day or more ahead, and was proven confirmed before |
| Refusals.RefusedByFirstFailure | apps/api/src/services/booking.service.ts:1906-1941 | in every reachable state a call is refused if and only if it fails a test, with the error of the first one it fails |
| Refusals.RefusedChangesNothing | apps/api/src/services/booking.service.ts:1647-1662 | a refused call changes nothing, unless it marks the booking whose hold it found spent |
| Retries.RetryIff | apps/api/src/services/booking.service.ts:663-666 | a call that was accepted is, after any run of any calls, answered with the same booking and leaves all bookings as they are, if and only if its token is still unexpired where that is tested first and, for a hold, the booking still has its key, for a cancellation, its key was recorded or the booking is still canceled |
| Retries.CancelRepeats | apps/api/src/services/booking.service.ts:1816-1829 | a call that canceled its booking is answered alike for ever |
| Retries.HoldRepeats | apps/api/src/services/booking.service.ts:1223-1227 | a hold is answered alike until a request under another key is answered with its booking |
| Retries.MailRetryIff | apps/api/src/services/booking.service.ts:1334-1378 | a mail that was sent is sent again under its key exactly while the booking waits on an unspent hold, with the token of that hold and without a change to a booking |
| Retries.RecordedIff | apps/api/src/services/booking.service.ts:2379-2390 | which keys are recorded: those of mails that go out, of accepted confirmations and moves, and of cancellations that cancel |
| LostRetries.TakenOverHoldIsRefused | apps/api/src/services/booking.service.ts:1084-1105 | the run in which an accepted hold, sent again under its key, is refused |
| LostRetries.UnrecordedCancelIsRefused | apps/api/src/services/booking.service.ts:1802-1814 | the run in which an accepted cancellation, sent again under its key, is refused |
| Sweeping.SweepExact | apps/api/src/services/booking.service.ts:2344-2370 | after a sweep exactly the bookings in hold or pending_verify whose hold ran out before are expired and without a hold, nothing else in the tables changes, and the cache is emptied exactly when there was one |
| Slots.SlotsExact | apps/api/src/services/booking.service.ts:524-541 | the slot loop yields exactly the grid slots that end by close, miss the breaks and start at the cutoff or later |
| Slots.SlotsAscend | apps/api/src/services/booking.service.ts:525-541 | in ascending order, pairwise disjoint and inside the opening hours |
| Slots.SlotLoopEndsIff | apps/api/src/services/booking.service.ts:524-541 | on an open day the loop ends after finitely many iterations if and only if the slot length is positive, and then with exactly the day's slots |
| OfferLaw.OfferedIff | apps/api/src/services/booking.service.ts:488-562 | a slot is offered if and only if its date is neither over, nor beyond the horizon, nor closed, and its weekday has hours; it is a k-th slot of the day that ends by close, meets no break and begins after the lead time; and for somebody asked for every live booking that meets the opening hours keeps the buffer from it on both sides |
| OfferLaw.QueryOffers | apps/api/src/services/booking.service.ts:807-836 | and that is what a query is answered, unless it names somebody who is not an active salesperson |
| OfferLaw.OfferAscends | apps/api/src/services/booking.service.ts:989-997 | and each is offered once, in the order of time |
| OfferLimits.OfferedIsGrantedIff | apps/api/src/services/booking.service.ts:1251-1279 | over all runs: a slot that fresh availability offers, asked for at that instant under a new key with the calendar free, is granted if and only if the row found for the salesperson in turn is no dead one with an active twin |
| OfferLimits.OfferedIsRefused | apps/api/src/services/booking.service.ts:1074-1106 | a run with one reschedule after which an offered slot is refused, for every time to live |
| Offers.OfferedCanBeHeld | apps/api/src/services/booking.service.ts:1251-1279 | after runs without reschedules every slot fresh availability offers is accepted by createHold at that instant, from any cursor |
| Offers.FreeGetsHold | apps/api/src/services/booking.service.ts:1065-1126 | with one row per slot, a salesperson free around an offered slot gets the hold |
| Offers.WillingIsAccepted | apps/api/src/services/booking.service.ts:1242-1281 | with one row per slot, a request that one candidate can take is accepted whatever the cursor holds |
| CacheLaw.CacheIsConservative | apps/api/src/services/booking.service.ts:873-885 | under those premises and with holds of 15 minutes or more, a slot served from the cache that meets the lead cutoff is in a fresh computation |
| StaleCache.ConservativeIff | apps/api/src/services/booking.service.ts:711-719 | in one zone, with a slot to offer, bookings inside one local date and no replayed cancel key naming a waiting booking: the cache is conservative over all such runs if and only if holds last at least 15 minutes |
| StaleCache.ShortHoldsServeTakenSlots | apps/api/src/services/booking.service.ts:883-885 | the run that serves a taken slot when holds are shorter |
| CacheLaw.NewLifeIsDropped | apps/api/src/services/booking.service.ts:435-454 | whatever becomes live by a call was live before, or its date is dropped from the cache |
| CacheLaw.RunKeepsStanding | apps/api/src/services/booking.service.ts:999 | every cached slot stays sound over every tidy run |
| CacheAge.ServedIsRecent | apps/api/src/services/booking.service.ts:873-885 | after any run of a service that started with an empty cache, an answer is what a fresh computation gives, or what it gave at a query of the run less than 45 seconds ago with no call since that makes it obsolete |
| CacheAge.AnswerStands | apps/api/src/services/booking.service.ts:999 | and a computed answer is given again for 45 seconds if no call makes it obsolete |
| CacheAge.DroppedIff | apps/api/src/services/booking.service.ts:435-454 | the calls that make it obsolete: an accepted hold or cancellation there, a move from or to there, and a sweep that expires anything; no other call drops it |
| CacheLaw.PlacedAsAsked | apps/api/src/services/booking.service.ts:1308-1316 | createHold writes the interval asked for on the row it answers with |
| CacheLaw.TablesIgnoreCache | apps/api/src/services/booking.service.ts:82 | a service with a cache leaves the same tables as one without |
| RoundRobin.NobodyStarves | apps/api/src/services/booking.service.ts:1242-1281 | one who would take every automatic assignment is chosen within n of them, from any cursor |
| RoundRobin.SharesAreEven | apps/api/src/services/booking.service.ts:1272-1277 | when everybody takes everything, shares differ by at most one over any run |
| RoundRobin.ShareByDistance | apps/api/src/services/booking.service.ts:1242-1281 | and each share is given by the distance from the cursor |
| RoundRobin.TakerComesNearer | apps/api/src/services/booking.service.ts:1251-1279 | each assignment chooses a taker or brings him nearer to the front |
| RoundRobin.OnlyAssignmentsMoveCursor | apps/api/src/services/booking.service.ts:1272-1277 | named requests, refusals, replays and all other calls leave the cursor alone |
| RoundRobin.CursorInRange | apps/api/src/services/booking.service.ts:1248 | the double remainder is the mathematical one, for negative cursors too |
| Occupancy.CanceledLeavesAtOnce | apps/api/src/services/booking.service.ts:1802-1842 | after calls about one booking that end with its being canceled (once or more often), marked expired or swept away, exactly the intervals are taken that would be without it, from the last call on, whether its row was created or reused |
| Occupancy.UnconfirmedLeavesByItself | apps/api/src/services/booking.service.ts:889-902 | the same one time to live after the last call when the booking was never confirmed, whether or not anything swept it |
| Occupancy.OccupancyIsConserved | apps/api/src/services/booking.service.ts:889-902 | the common part: the same whenever the booking is not live |
| Occupancy.OthersUntouched | apps/api/src/services/booking.service.ts:1841-1842 | calls about one booking leave the life of all others alone |
| BookingService.Service.constructor | apps/api/src/services/booking.service.ts:78-84 | an empty service |
| BookingService.Service.InvalidateForStart | apps/api/src/services/booking.service.ts:435-454 | drops both scopes of the local date |
| BookingService.Service.TryCreateHold | apps/api/src/services/booking.service.ts:1047-1145 | the attempt in place is the specified one; an index violation leaves the tables as they were |
| BookingService.Service.Assign | apps/api/src/services/booking.service.ts:1242-1281 | the loop places the hold and moves the cursor as the allocator specifies |
| BookingService.Service.FindOrAssign | apps/api/src/services/booking.service.ts:1220-1282 | the transaction of createHold |
| BookingService.Service.CreateHold | apps/api/src/services/booking.service.ts:602-631 | takes the specified step on tables and cache |
| BookingService.Service.SendVerification | apps/api/src/services/booking.service.ts:1321-1413 | takes the specified step |
| BookingService.Service.ConfirmInTx | apps/api/src/services/booking.service.ts:1684-1750 | the confirming transaction takes its specified step |
| BookingService.Service.ConfirmBooking | apps/api/src/services/booking.service.ts:1567-1755 | takes the specified step |
| BookingService.Service.ConfirmBookingById | apps/api/src/services/booking.service.ts:656-727 | takes the specified step |
| BookingService.Service.CancelBooking | apps/api/src/services/booking.service.ts:1768-1893 | takes the specified step on tables and cache |
| BookingService.Service.MoveTx | apps/api/src/services/booking.service.ts:1969-2020 | the rescheduling transaction moves the booking or leaves the tables alone |
| BookingService.Service.RescheduleBooking | apps/api/src/services/booking.service.ts:1895-2074 | takes the specified step on tables and cache |
| BookingService.Service.ExpireHolds | apps/api/src/services/booking.service.ts:2344-2370 | takes the specified step; the cache is cleared only when something expired |
| BookingService.Service.BuildSlots | apps/api/src/services/booking.service.ts:524-541 | the while loop computes the specified slots |
| BookingService.Service.FilterFree | apps/api/src/services/booking.service.ts:989-997 | the filter keeps the slots somebody is free for, in order |
| BookingService.Service.AnyFree | apps/api/src/services/booking.service.ts:990-996 | whether one of the salespersons has no busy interval in the way |
| BookingService.Service.GetAvailability | apps/api/src/services/booking.service.ts:807-999 | serves the cached entry while it lasts, otherwise computes and stores a fresh one |
| Backoff.DelayInRange | apps/api/src/services/compensation.worker.ts:153-157 | a delay lies between its base and base plus jitter, and within the hour |
| Backoff.BaseDoubles | apps/api/src/services/compensation.worker.ts:153-157 | the base starts at 30 s and doubles up to an hour |
| Backoff.DelayIff | apps/api/src/services/compensation.worker.ts:153-157 | some draw gives a delay if and only if it is less than min(5 s, a fifth of the base) above the base, and within the hour |
| Backoff.DelaysGrow | apps/api/src/services/compensation.worker.ts:153-157 | for every pair of draws a later delay is no shorter, and none exceeds an hour |
| Compensation.StepKeepsInv | apps/api/src/services/compensation.worker.ts:57-87 | one statement of one worker keeps ownership and counters |
| CompensationLaws.WorkersShareSafely | apps/api/src/services/compensation.worker.ts:57-87 | over every interleaving without a lost owner: one owner per processing job, attempts equal failed runs, pending below 10, failed iff 10, at most 10 deletions tried |
| CompensationLaws.HistoryCounts | apps/api/src/services/compensation.worker.ts:66-87 | every deletion tried and every error met is counted once in the history the bounds speak of |
| CompensationLaws.BatchIsOldest | apps/api/src/services/compensation.worker.ts:36-43 | a tick takes every ready job that fewer than 20 others precede, and none that 20 older ready ones wait before |
| CompensationLaws.BatchInOrder | apps/api/src/services/compensation.worker.ts:41-47 | and the older ones first |
| CompensationLaws.OwnerNeverLosesTheRace | apps/api/src/services/compensation.worker.ts:115-143 | every compare-and-set after the claim finds its row |
| CompensationLaws.FinishedIsFinal | apps/api/src/services/compensation.worker.ts:71-79 | done and failed jobs are never touched again, from any state and whoever crashes |
| CompensationLaws.LosingAnOwnerIsTheOnlyHarm | apps/api/src/services/compensation.worker.ts:58-64 | losing a worker keeps the invariant exactly when it owned no job |
| CompensationLaws.OrphanStaysForever | apps/api/src/services/compensation.worker.ts:36-43 | a processing job without an owner stays as it is in every run |
| ClaimSpacing.ClaimsAreSpaced | apps/api/src/services/compensation.worker.ts:132-143 | with one process, consecutive claims of a job are min(1 h, 30 s times 2^attempts) apart |
| ClaimSpacing.EarlyIff | apps/api/src/services/compensation.worker.ts:36-64 | with any number of workers, a claim comes before the delay from the last retry write has passed if and only if the row's next run still lies ahead at the claim |
| ClaimSpacing.TwoProcessesClaimAtOnce | apps/api/src/services/compensation.worker.ts:36-47 | two processes can claim a job twice at one instant |
| CompensationTick.CompensationWorker.constructor | apps/api/src/services/compensation.worker.ts:14-16 | a worker at rest |
| CompensationTick.CompensationWorker.OnModuleDestroy | apps/api/src/services/compensation.worker.ts:24-26 | clears the running flag |
| CompensationTick.CompensationWorker.Tick | apps/api/src/services/compensation.worker.ts:29-55 | does nothing when disabled or running, otherwise works through the selected batch |
| CompensationTick.CompensationWorker.ProcessJob | apps/api/src/services/compensation.worker.ts:57-87 | claim, deletion and last write of one job |
| CompensationTick.CompensationWorker.RetryOrFail | apps/api/src/services/compensation.worker.ts:102-143 | the retry write, if the job is still processing |
| CompensationTick.TickSettlesItsBatch | apps/api/src/services/compensation.worker.ts:45-47 | every selected job is settled once by its own outcome and no other job changes |
| CompensationTick.BatchIsARun | apps/api/src/services/compensation.worker.ts:29-55 | the uninterrupted batch is a run of the machine, and leaves its worker idle |
| Webhook.AttemptsAreBounded | apps/api/src/services/webhook.worker.ts:155-228 | reconciliation starts at most 5 times and succeeds at most once per job, pending means at most 4 attempts, failed means 5, processing means in the consumer's hands |
| Webhook.ClosedForGood | apps/api/src/services/webhook.worker.ts:159-161 | done and failed are absorbing whatever is still queued or claimed |
| Webhook.NoTakeover | apps/api/src/services/webhook.worker.ts:173-179 | with one consumer the branch for a job already processing is dead |
| Webhook.NothingIsStranded | apps/api/src/services/webhook.worker.ts:111-120 | a pending job passes the due filter exactly from its next run and five minutes after its last claim on |
| Webhook.StepKeepsInv | apps/api/src/services/webhook.worker.ts:181-224 | one statement of consumer, scanner or queue keeps the counters |
| WebhookRules.ItemSettles | apps/api/src/services/webhook.worker.ts:155-228 | one item leaves its job alone, releases it, or counts an attempt and makes it done, failed at the fifth, or pending with the next delay; no other job changes |
| WebhookRules.RetryDelaysDouble | apps/api/src/services/webhook.worker.ts:215 | the delay starts at a second and doubles up to a minute |
| WebhookRules.StartedIsSkippedIff | apps/api/src/services/webhook.worker.ts:173-190 | a reader of a job just started passes it by for five minutes and takes it over from then on |
| WebhookRules.PageIsSoonest | apps/api/src/services/webhook.worker.ts:111-124 | a scan takes every due job that fewer than 25 others precede, and none that 25 earlier ones wait before |
| WebhookRules.ClaimIff | apps/api/src/services/webhook.worker.ts:129-140 | a claim goes through if and only if it finds its job pending and unclaimed for five minutes before its scan |
| WebhookRules.ClaimsKeepApart | apps/api/src/services/webhook.worker.ts:126-152 | however many passes overlap, while only scanners act two claims of a job are more than five minutes of scan time apart |
| WebhookRules.QueuedOrReleased | apps/api/src/services/webhook.worker.ts:141-150 | a claimed job is queued behind what is there, or its claim is released when that fails |
| WebhookRules.ScanIsARun | apps/api/src/services/webhook.worker.ts:108-153 | a scan nobody interrupts is a run of the machine that claims and queues what the scanner as written does |
| WebhookRules.HistoryCounts | apps/api/src/services/webhook.worker.ts:194-224 | every reconciliation begun, its success and the instant of its failure are in the history the bounds speak of |
| WebhookRules.AnyQueueComes | apps/api/src/queue/memory.queue.ts:6-8 | the queue may come to hold any jobs, any number of times and in any order |
| RetrySpacing.RetriesWait | apps/api/src/services/webhook.worker.ts:163-171 | the n-th attempt begins at least the retry delay after the failure before it, duplicates and scans notwithstanding |
| WebhookService.WebhookWorker.constructor | apps/api/src/services/webhook.worker.ts:27-28 | a running worker with an empty queue |
| WebhookService.WebhookWorker.OnModuleDestroy | apps/api/src/services/webhook.worker.ts:58-63 | stops the loop |
| WebhookService.WebhookWorker.Enqueue | apps/api/src/queue/memory.queue.ts:6-8 | appends |
| WebhookService.WebhookWorker.Dequeue | apps/api/src/queue/memory.queue.ts:10-12 | takes the oldest item |
| WebhookService.WebhookWorker.EnqueueClaimed | apps/api/src/services/webhook.worker.ts:127-151 | claims and queues one due job, or releases the claim |
| WebhookService.WebhookWorker.EnqueueDueJobs | apps/api/src/services/webhook.worker.ts:108-153 | queues the page's jobs whose enqueue went through, and claims exactly those |
| WebhookService.WebhookWorker.ProcessItem | apps/api/src/services/webhook.worker.ts:155-228 | one item, from the read of its row to the last write |
| WebhookService.WebhookWorker.RunDequeueLoop | apps/api/src/services/webhook.worker.ts:79-106 | drains the queue in order until the worker is stopped |
| WebhookService.ScanClaimsItsPage | apps/api/src/services/webhook.worker.ts:126-152 | each job of a page gets its own claim and no other row changes |
| WebhookService.LoopIsARun | apps/api/src/services/webhook.worker.ts:79-106 | the dequeue loop is a run of the machine |
| RateLimit.Limiter.constructor | apps/api/src/middleware/public-rate-limit.ts:12-17 | no buckets |
| RateLimit.Limiter.Admit | apps/api/src/middleware/public-rate-limit.ts:25-36 | one request on the bucket map |
| RateLimit.WindowBound | apps/api/src/middleware/public-rate-limit.ts:25-36 | at most max(1, limit) requests of a key pass from the opening of a window until it resets |
| RateLimit.SlidingBound | apps/api/src/middleware/public-rate-limit.ts:25-36 | at most 2 max(1, limit) pass in any interval of the window's length, for every request sequence |
| RateLimit.BoundIsReached | apps/api/src/middleware/public-rate-limit.ts:29-35 | two bursts reach that bound |
| RateLimit.KeysAreIndependent | apps/api/src/middleware/public-rate-limit.ts:27-30 | requests on other keys change nothing for a key |
| RateLimit.NoWindowNoLimit | apps/api/src/middleware/public-rate-limit.ts:29-31 | without a positive window every request of every sequence passes |

## Left out

- Calls to Graph, Zoom, mail and Service Bus, and the best-effort work after a confirmation; the calendar enters createHold as a set of busy salespersons, and is off in availability.
- Graph reconciliation, which overwrites times and statuses by policy without a conflict check.
- Several tenants: the tables are those of one tenant, whose rows no other tenant's call touches.
- Concurrency inside the database: one call is one atomic step, except in SplitConfirmsExclude, and the advisory locks are not modelled.
- Daylight saving, ISO strings, luxon and the parsing of business hours: times are integer milliseconds, zones are fixed offsets, hours are already parsed and slot lengths positive whole minutes.
- JSON web token cryptography: a token is genuine or it is not.
- The empty-token tests, the normalisation of modes and notes, customers, display names, tracking events and audit rows.
- The wait between the clock readings inside one call: createHold's `now`, created_at and the step clock are one instant.
- Availability and cache with several processes, whose caches do not see each other's invalidations.
- BookingService.Service.ConfirmBooking: the checks before the transaction and the transaction itself see the same tables; SplitConfirmsExclude treats the gap between them.
- CacheLaw.CacheIsConservative: assumes, as the invalidation does, that salespersons live in the tenant's zone and bookings lie inside one local date.
- CompensationTick.CompensationWorker.Tick: database errors that abort a batch are not in the class; the machine has them as Crash.
- WebhookService.WebhookWorker.RunDequeueLoop: the loop takes as many turns as the list of what the world does, with scans and arrivals in between left to the machine.
- WebhookService.WebhookWorker.EnqueueDueJobs: the concurrent claims of one page are taken in order; the machine interleaves them.
- Webhook.AttemptsAreBounded: no database failure in the consumer; one between the processing mark and the outcome leaves the row processing until it is stale.
- The choice of bucket by path and address, and the limiter's on-off switch.
- Listing, resending, reinviting, attendance and form handling, which would add only easy members.
