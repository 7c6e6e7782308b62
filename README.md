# Parking lot: ticket store, slot allocation, fee calculation and payment retry

A Dafny model of the state-keeping and billing core of a small Java parking-lot
system. It has four parts:

- **Ticket store** (`Tickets`, file `tickets.dfy`). This is `TicketRepository`: a map from
  ticket id to ticket, with save, lookup, listing of active tickets, clear and
  deactivate.
- **Slot allocation** (`Slots`, file `slots.dfy`). `SlotService` is a facade that allocates,
  releases, creates and counts parking slots over a slot store. The code of
  the store (`SlotRepository`) is not modelled. Here it is the smallest store with the behaviour the facade relies on: a sequence of slots
  with distinct ids.
- **Fee calculation** (`Pricing`, file `pricing.dfy`). `PricingService` charges the smaller of
  the flat rate and billed hours × hourly rate. It also holds the rule table
  that `addPricingRule` and `updatePricingRule` change.
- **Payment with retry** (`Payments`, file `payments.dfy`). `PaymentService` appends one ledger
  record per attempt, asks the current gateway adapter, and after a failed
  attempt numbered above 1 replaces the current adapter with Stripe.

Shared types (vehicle classes, ids, `Option`) are in `common.dfy`.

Modelling choices:

- Time is a whole number of seconds. `calculateFee` takes the current time
  `now` as a parameter instead of reading the clock. `Duration.toHours` is
  truncating division by 3600, as Java's `long` division is.
- Money is `real`. Identifiers are natural numbers.
- The payment providers are an oracle `(GatewayAdapter, nat) -> bool`. The
  number is the attempt's position in the ledger, counted over every attempt
  the service has ever made.
- A payment record's id is its ledger position.
- A new slot's id is passed in, and must not already be in the store. This
  stands in for the fresh random UUID the source creates.
- The store allocates the first free slot of the requested class, in
  insertion order.

Where the code does less than its own comments suggest, the model follows the
code:

- Hours are truncated by `Duration.toHours`, not rounded up. The only
  adjustment is the "minimum 1 hour charge" of PricingService.java:47. So
  every session shorter than two hours is billed as one hour.
- The pricing rule is always looked up for `CAR`, whatever the ticket is for.
  PricingService.java:21-23 says this is a stand-in for demo purposes.
- The comment "Try different gateway on retry" (PaymentService.java:51) is
  guarded by `attempt > 1`. So the gateway is switched only after a failed
  attempt numbered above 1, and attempts 1 and 2 both use the gateway that
  was current at the call.
- Every record is written with gateway `RAZORPAY` (PaymentService.java:25),
  even when Stripe or another adapter took the attempt.

## Model

| member | source | states |
|---|---|---|
| `Tickets.DeactivateIn` | ParkingLotSystem/src/com/arise/repository/TicketRepository.java:32-37 | the key set is unchanged; a present ticket gets active = false and keeps its other fields; every other entry is unchanged |
| `Tickets.DeactivateIdempotent` | ParkingLotSystem/src/com/arise/repository/TicketRepository.java:33-36 | deactivating twice gives the same map as deactivating once |
| `Tickets.DeactivateLeavesActiveList` | ParkingLotSystem/src/com/arise/repository/TicketRepository.java:24-37 | after deactivation no active ticket has that id; for every other id the set of active tickets is unchanged; entries stay keyed by their own id |
| `Tickets.TicketRepository.constructor` | ParkingLotSystem/src/com/arise/repository/TicketRepository.java:13 | the store starts empty |
| `Tickets.TicketRepository.Save` | ParkingLotSystem/src/com/arise/repository/TicketRepository.java:15-18 | returns its argument; the ticket is stored under its id, replacing any earlier entry; findById of that id then returns it; all other entries are unchanged |
| `Tickets.TicketRepository.FindById` | ParkingLotSystem/src/com/arise/repository/TicketRepository.java:20-22 | present exactly when the id was stored, and then it is the stored ticket with that id; empty for an id never saved |
| `Tickets.TicketRepository.FindActiveTickets` | ParkingLotSystem/src/com/arise/repository/TicketRepository.java:24-26 | the result holds exactly the stored tickets whose active flag is set, none missing and none extra, and no id twice |
| `Tickets.TicketRepository.Clear` | ParkingLotSystem/src/com/arise/repository/TicketRepository.java:28-30 | the map is empty, and findById is empty for every id |
| `Tickets.TicketRepository.DeactivateTicket` | ParkingLotSystem/src/com/arise/repository/TicketRepository.java:32-37 | a present ticket becomes inactive and leaves the active list; the key set and all other tickets are unchanged; an absent id changes nothing |
| `Pricing.TruncDiv` | ParkingLotSystem/src/com/arise/service/PricingService.java:45 | the quotient is rounded toward zero: below or at the exact quotient for non-negative dividends, above or at it for negative ones |
| `Pricing.BilledHours` | ParkingLotSystem/src/com/arise/service/PricingService.java:44-50 | at least 1; for one hour or more it is the whole hours elapsed (h hours ≤ elapsed < h+1 hours); exactly 1 for anything under two hours, negative durations included |
| `Pricing.BilledHoursMonotone` | ParkingLotSystem/src/com/arise/service/PricingService.java:44-50 | a longer session is never billed fewer hours |
| `Pricing.HourlyFee` | ParkingLotSystem/src/com/arise/service/PricingService.java:43-53 | with a non-negative rate the charge is at least one hour's rate (the minimum 1 hour charge); every session under two hours, negative ones included, is charged exactly one hour's rate |
| `Pricing.Min` | ParkingLotSystem/src/com/arise/service/PricingService.java:37 | the result is at most each argument and equal to one of them |
| `Pricing.Fee` | ParkingLotSystem/src/com/arise/service/PricingService.java:33-52 | the fee is at most the flat rate and at most billed hours × hourly rate, and equals one of the two |
| `Pricing.UnderTwoHoursBilledAsOne` | ParkingLotSystem/src/com/arise/service/PricingService.java:45-52 | every session under two hours, including a negative one, costs min(flat rate, hourly rate) |
| `Pricing.FeeMonotone` | ParkingLotSystem/src/com/arise/service/PricingService.java:37-52 | with a non-negative hourly rate the fee never decreases as elapsed time grows |
| `Pricing.WorkedExamples` | ParkingLotSystem/src/com/arise/service/PricingService.java:33-52 | a rule of 25 flat and 60 per hour charges 25 for one hour; a rule of 50 flat and 18 per hour charges 36 for two hours and 18 for one second less |
| `Pricing.PricingService.constructor` | ParkingLotSystem/src/com/arise/service/PricingService.java:14-16 | the service starts with the given rule table |
| `Pricing.PricingService.CalculateFee` | ParkingLotSystem/src/com/arise/service/PricingService.java:18-41 | fails with NoPricingRule(CAR) exactly when there is no CAR rule; otherwise the fee is at most the CAR flat rate and at most billed hours × the CAR hourly rate, and equals one of the two |
| `Pricing.PricingService.FeeIgnoresTicketClass` | ParkingLotSystem/src/com/arise/service/PricingService.java:21-24 | changing the ticket's vehicle class does not change the fee or the error |
| `Pricing.PricingService.AddPricingRule` | ParkingLotSystem/src/com/arise/service/PricingService.java:55-57 | the rule is stored under its own vehicle class and every other rule is kept |
| `Pricing.PricingService.UpdatePricingRule` | ParkingLotSystem/src/com/arise/service/PricingService.java:59-61 | the rule for that vehicle class is replaced and every other rule is kept |
| `Slots.AvailableSlots` | ParkingLotSystem/src/com/arise/service/SlotService.java:44 | every listed slot is in the store, serves the class and is free; every free slot of the class in the store is listed |
| `Slots.AvailableCountIsFreePositions` | ParkingLotSystem/src/com/arise/service/SlotService.java:43-45 | the available count equals the number of store positions that hold a free slot of the class |
| `Slots.AvailableCountZero` | ParkingLotSystem/src/com/arise/service/SlotService.java:43-45 | the available count is 0 exactly when no slot of the class is free |
| `Slots.AvailableCountAppend` | ParkingLotSystem/src/com/arise/service/SlotService.java:37-45 | adding a slot raises its class's count by one if it is free and leaves other classes' counts unchanged |
| `Slots.AvailableCountUpdate` | ParkingLotSystem/src/com/arise/service/SlotService.java:43-45 | replacing one slot changes a class's count by minus one if the old slot was free of that class and plus one if the new one is |
| `Slots.FirstFreeFrom` | ParkingLotSystem/src/com/arise/service/SlotService.java:21 | returns the first position at or after k that holds a free slot of the class, or nothing exactly when there is none |
| `Slots.Allocate` | ParkingLotSystem/src/com/arise/service/SlotService.java:21 | returns nothing exactly when no slot of the class is free, and then the store is unchanged; otherwise the returned slot serves the class, was free and is now occupied in place, and only that position changed |
| `Slots.AllocateCounts` | ParkingLotSystem/src/com/arise/service/SlotService.java:21-26 | allocation returns nothing exactly when the count is 0; a returned slot lowers the count for its class by one; other classes' counts do not change |
| `Slots.Released` | ParkingLotSystem/src/com/arise/service/SlotService.java:33 | the slot with that id becomes free and every other slot is unchanged |
| `Slots.ReleaseIdempotent` | ParkingLotSystem/src/com/arise/service/SlotService.java:33 | releasing twice is the same as releasing once |
| `Slots.ReleaseCounts` | ParkingLotSystem/src/com/arise/service/SlotService.java:31-35 | releasing a held slot changes only that slot; its class's count goes up by one if it was occupied |
| `Slots.ReleaseUndoesAllocate` | ParkingLotSystem/src/com/arise/service/SlotService.java:21-33 | releasing the slot an allocation returned gives back the original store, and so every class's count |
| `Slots.SlotRepository.constructor` | ParkingLotSystem/src/com/arise/main/ParkingLotSimulation.java:32 | the store starts empty |
| `Slots.SlotRepository.Save` | ParkingLotSystem/src/com/arise/service/SlotService.java:39 | a slot with a fresh id is appended; ids stay distinct |
| `Slots.SlotRepository.AllocateSlot` | ParkingLotSystem/src/com/arise/service/SlotService.java:21 | returns what Allocate gives and takes on its new store |
| `Slots.SlotRepository.ReleaseSlot` | ParkingLotSystem/src/com/arise/service/SlotService.java:33 | the store becomes what Released gives |
| `Slots.SlotService.constructor` | ParkingLotSystem/src/com/arise/service/SlotService.java:14-16 | the service wraps the given store |
| `Slots.SlotService.AllocateSlot` | ParkingLotSystem/src/com/arise/service/SlotService.java:18-29 | passes on the store's result unchanged; nothing is returned exactly when the count is 0, and then nothing changes; a returned slot serves the class, is occupied and is in the store; its class's count drops by one and other counts are unchanged |
| `Slots.SlotService.ReleaseSlot` | ParkingLotSystem/src/com/arise/service/SlotService.java:31-35 | the slot with that id becomes free; an unknown id changes nothing |
| `Slots.SlotService.CreateSlot` | ParkingLotSystem/src/com/arise/service/SlotService.java:37-41 | returns a free slot with the given class, floor and id; exactly that slot is added after the existing ones, which are unchanged; its class's count rises by one and other counts are unchanged |
| `Slots.SlotService.GetAvailableSlotCount` | ParkingLotSystem/src/com/arise/service/SlotService.java:43-45 | equals the number of slots of the class that are free |
| `Payments.FirstSuccessFrom` | ParkingLotSystem/src/com/arise/service/PaymentService.java:42-49 | returns 0 or a succeeding attempt between k and maxRetries; every attempt from k up to it (or up to maxRetries when it is 0) fails |
| `Payments.FirstSuccess` | ParkingLotSystem/src/com/arise/service/PaymentService.java:42-49 | positive exactly when some attempt among the first maxRetries succeeds; then it is the first such attempt |
| `Payments.RetryRecords` | ParkingLotSystem/src/com/arise/service/PaymentService.java:25-33 | one record per attempt made |
| `Payments.NoRetriesNoRecords` | ParkingLotSystem/src/com/arise/service/PaymentService.java:42-60 | with maxRetries ≤ 0 there is no success, no attempt and no failure |
| `Payments.SwitchedIffFirstTwoFailed` | ParkingLotSystem/src/com/arise/service/PaymentService.java:52-56 | at least two attempts fail exactly when maxRetries ≥ 2 and attempts 1 and 2 both fail |
| `Payments.ThirdAttemptSucceeds` | ParkingLotSystem/src/com/arise/service/PaymentService.java:42-56 | with three attempts allowed and only the third accepted, the first success is attempt 3, three attempts are made, Stripe takes the third, and the records are FAILED, FAILED, SUCCESS |
| `Payments.PaymentService.constructor` | ParkingLotSystem/src/com/arise/service/PaymentService.java:17-21 | the ledger is the records the given repository holds and Razorpay is the current adapter |
| `Payments.PaymentService.ProcessPayment` | ParkingLotSystem/src/com/arise/service/PaymentService.java:23-37 | appends exactly one record with the ticket id, the amount and gateway RAZORPAY; its status is SUCCESS if the current adapter accepted and FAILED otherwise; returns that answer; earlier records and the adapter are unchanged |
| `Payments.PaymentService.ProcessPaymentWithRetry` | ParkingLotSystem/src/com/arise/service/PaymentService.java:39-62 | returns true exactly when some attempt among the first maxRetries succeeds; earlier records are kept in order; it appends one record per attempt up to the first success, or maxRetries if all fail; all are FAILED except a final SUCCESS; attempts 1 and 2 use the adapter current at the call and later ones Stripe (`AttemptGateway`, lines 51-56); the adapter ends as Stripe exactly when two or more attempts failed |
| `Payments.PaymentService.SetDefaultGateway` | ParkingLotSystem/src/com/arise/service/PaymentService.java:64-66 | the given adapter becomes current and the ledger is unchanged |

## Left out

- Concurrency. `ConcurrentHashMap` and any atomicity of the stores are modelled as plain sequential updates to a map or sequence field.
- Logging. Every `System.out.println` is left out.
- Object aliasing. A `Ticket`, `ParkingSlot` or `Payment` that Java shares by reference is a value here. The store's copy is the one that changes, so a caller's copy is not changed by `deactivateTicket`, allocation or `markAsSuccess`.
- The clock. `LocalDateTime.now()` is the `now` parameter of `CalculateFee`. Sub-second parts of a `Duration` are not modelled; `toHours` ignores them except for negative durations, which are billed as one hour either way.
- `double` arithmetic. Fees are exact reals; IEEE rounding is not modelled.
- Java `int` overflow. `maxRetries` is an unbounded integer. The source's `attempt++` would wrap at `Integer.MAX_VALUE` if every attempt failed; the model does not capture that.
- Identifier generation. UUIDs become numbers. A new slot's id is a parameter required to be unused. A payment's id is its ledger position.
- The gateway adapters (`RazorpayAdapter`, `StripeAdapter`, `PaymentGatewayAdapter.pay`). They are external providers and become the oracle. A fresh `StripeAdapter` object made on each switch is the same `StripeAdapter` value here.
- Repositories. `SlotRepository`, `PricingRuleRepository` and `PaymentRepository` are not part of this model. Only their effects are modelled, as fields.
  - A new `SlotRepository` is assumed to start empty.
  - The records a `PaymentRepository` already holds are assumed to be settled, with ids numbered by position.
  - Slot allocation is assumed to pick the first free slot in insertion order.
  - Releasing an unknown slot id is assumed to do nothing.
  - `save` and `update` of a pricing rule are both assumed to store the rule under its vehicle class.
  - `update` of a payment is assumed to replace the record with the same id.
- Domain classes. `Ticket`, `ParkingSlot`, `Payment` and `PricingRule` are not part of this model. Their fields follow what the services read. A new slot is assumed to start free.
- The demo driver, controllers, receipts and admin services (`ParkingLotSimulation.java` and classes not part of this model). The entry/exit flow that chains allocation, ticketing, pricing and payment lives there, so it is not modelled.
- `Tickets.TicketRepository.FindActiveTickets`: the order of the list is not stated, because the source takes it from a hash map's iteration order.
