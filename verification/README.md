# Verification model of the Wheelers ride-hailing backend

This project models the event delivery, money and booking logic of the Wheelers
backend in Dafny and proves properties of the model. `dafny verify dfyconfig.toml`
checks all of it.

| file | models |
|---|---|
| `Booking.dfy` | the WhatsApp booking conversation: state, what each message makes the handler write, runs with failed writes and outside changes |
| `BookingRequests.dfy`, `BookingFloor.dfy`, `BookingPayment.dfy`, `BookingMoney.dfy` | when a ride is requested and cancelled, the fare floor, paying before accepting, conservation of the rider's money |
| `BookingEdits.dfy`, `BookingEnds.dfy`, `BookingActive.dfy` | route edits, whose route a pin edits, which ride is active |
| `BookingConversation.dfy` | what each message stores of stage, place, route and shown bids |
| `BookingWebhook.dfy` | the handler as imperative code over the Redis keys, with what it keeps at each write |
| `BidFlush.dfy` | the notification window, flush timer and batch through which a bid becomes visible |
| `Outbox.dfy`, `Pipeline.dfy` | transactional outbox, broker log, consumer and dead-letter queue |
| `Idempotency.dfy`, `WebhookDedup.dfy` | the idempotent request runner and the webhook marker |
| `PouchClient.dfy`, `Sweep.dfy` | payout retries under one key and the treasury sweep |
| `Pricing.dfy` | fares, least offers and the fee split |
| `Common.dfy`, `Options.dfy` | powers of two, repetition, optional values |
| `Polyline.dfy`, `EnvParser.dfy`, `Token.dfy` | the polyline, `.env` and base64url/token codecs |

Protocols are state machines: a step is one write, answer, failure, crash or passing of
time, and the main results hold for every run. Where the source is imperative there is a
class with the same fields, whose methods are proved against the state machine or against
a specification function. Money is in kobo, distance in metres, coordinates in 1e-5 degrees,
time in milliseconds; floating-point arithmetic is replaced by exact arithmetic, and
`Math.round` rounds halves up.

## What the proofs found

Some properties that the code or its comments suggest do not hold as they stand. In each case
the model follows the code, a lemma gives the failing run, and another one the exact condition.

- **Fare floor.** "edit from" without an address stores a route with a minimum of zero before it
  changes the stage. If that second write fails while a price is awaited, the next price is checked
  against zero (`AStrandedRunLosesTheFloor`, `StepKeepsFloorIff`). The comment above the branch
  speaks of the editing handlers only.
- **Holds.** `createRideHold` reports success for a ride that already has a hold row, with the old
  amount or a released row, and the route ignores the result (`AReusedHoldFallsShort`,
  `PaidIsHeldIff`).
- **Payments.** If the handler fails behind the hold and the clearing of the choice, the fare is held for
  nobody (`InterruptedPayment`); if it fails right behind the hold, the rider can only pay again if the wallet
  covers the fare a second time, although the hold is there already (`PayingAgain`).
- **Confirmed rides.** The route means to allow nothing but a cancellation for a confirmed ride, yet
  guards texts only, and paying leaves the stage alone. "edit from", a driver's number, "pay" and a pin
  cancel a paid ride for an edit (`PinCancelsAConfirmedRide`, `UnderwayCancelledIff`).
- **Edits.** A pin sent while editing a new quote can cancel an older ride that a late bid brought
  back (`PinCanCancelAnotherRide`, `StepKeepsEndsIff`). The cancelling branch of the typed edit (lines
  3029-3042) is never reached with an active ride, because the active-ride section answers every text.
- **Expired choices.** Paying for a choice whose ride has expired also clears the active ride, even
  another one (`AFailedPaymentCanLoseAnotherRide`, `FailedPaymentMovesNothing`).
- **Bids.** A flush that takes longer than its own 30 s window, or a rider's view that overlaps an
  arrival, can take a bid out of the batch for good (`ForgetsIffSlow`, `ViewForgets`, `WatchedIff`); a view that
  does not is made up for within the usual bound (`BackInTime`). The
  late-bid rebuild empties the bid list of other drivers' bids (`OnCounterOffer`).
- **Order.** A repeated delivery can succeed after a later event of the same key was applied, so
  per-key order holds if and only if no failed event succeeds late (`OrderCanBreak`, `AppliedInOutboxOrderIff`).
- **Dead letters.** The producer is cached before it connects; after a failed first connection
  every later letter is lost (`FirstConnectionDecides`).
- **Sweep.** `types.ts` requires every payout status to go through its classifier; the sweep looks
  for FAIL and REJECT only and counts six of the nine failure statuses as swept (`SweepMissesFailures`).
- **Payout client.** A 4xx answer whose body is not JSON is retried (`WhichAnswerEndsTheCall`).
- **Webhook marker.** A dispatch can take effect and still throw: the clearing that follows lets the
  retry act again, and a lost clearing drops every retry of one that did not (`TwoEffects`,
  `ExactlyOnceIff`).
- **`.env`.** A literal backslash-n has no escaped form and comes back as a line break
  (`EnvParser.RoundTrip`).
- **Polyline.** Single values survive only within 31 zig-zag bits (`ValueRoundTrip`); points on the
  globe always do.

## Model

| member | source | states |
|---|---|---|
| BookingFloor.FloorOnEveryRun | apps/api-gateway/src/http/whatsapp.route.ts:3104-3167 | On every run of messages, failures and outside changes that never stops behind a placeholder route, each published ride request offers at least its own minimum, which is at least 3000 NGN, and no counter-offer is below 3000 NGN |
| BookingFloor.StepKeepsFloorIff | apps/api-gateway/src/http/whatsapp.route.ts:2067-2078 | From a state that satisfies the floor invariant, one step keeps it exactly when it does not stop between storing the placeholder route and leaving the stage that takes a price |
| BookingFloor.AStrandedRunLosesTheFloor | apps/api-gateway/src/http/whatsapp.route.ts:3489-3533 | A run with one failed write publishes a request at 100 NGN with a minimum of zero |
| BookingFloor.RunKeepsFloor | apps/api-gateway/src/http/whatsapp.route.ts:3502-3570 | The floor invariant, over the stage, the pending route, the remembered route and all published events, holds along whole runs |
| BookingFloor.DecisionIsHarmless | apps/api-gateway/src/http/whatsapp.route.ts:1584-3968 | In every branch but the placeholder one, every single write keeps the floor invariant, so it holds at whatever write the handler fails |
| BookingFloor.CounterOfferIsFair | apps/api-gateway/src/http/whatsapp.route.ts:2453-2495 | A counter-offer is published and stored exactly if the ride has its chat state and the price reaches the least offer for its suggested fare, which is at least 3000 NGN |
| BookingRequests.ARequestStartsTheRide | apps/api-gateway/src/http/whatsapp.route.ts:3147-3187 | A message publishes a request exactly in the three booking branches: only without an active ride, once, from the pickup to the destination of the route shown, at the offer named and with that route's minimum and suggested fare; the new ride is then active, its chat state holds the same fields, and the route is what search again asks for |
| BookingRequests.RequestsNameTheShownRoute | apps/api-gateway/src/http/whatsapp.route.ts:3135-3187 | Every step, cut short anywhere or not, publishes and records nothing but the route and offer that the rider was shown and answered, end by end and price by price |
| BookingRequests.SearchAgainStarts | apps/api-gateway/src/http/whatsapp.route.ts:3918-3968 | Search again publishes the remembered route at the remembered offer and makes the new ride the active one |
| BookingRequests.CancellingNeedsAReason | apps/api-gateway/src/http/whatsapp.route.ts:1584-1612 | A message cancels the active ride for a reason if and only if one was asked for and is given; then every booking key is cleared, only the remembered route stays, and of the ride's chat state exactly what the cleanup silently failed to delete; asking again changes nothing |
| BookingEdits.EditNeverStrands | apps/api-gateway/src/http/whatsapp.route.ts:1977-2042 | A message cancels the active ride for an edit if and only if the new route is planned and, for a text, the place was found, the ride is not underway and its chat state has both ends, or, for a pin, an end of a stored route is being edited; then the rider has no ride and no pending payment, waits for a price on the new route, and of the ride's chat state only what the cleanup failed to delete is left, while what is held stays held; a failing edit changes nothing |
| BookingEdits.CancelsForEditIff | apps/api-gateway/src/http/whatsapp.route.ts:2019-2029 | Over all steps, interrupted and outside ones included, a ride is cancelled for an edit exactly when a message whose edit succeeds performs its first write |
| BookingEdits.UnderwayCancelledIff | apps/api-gateway/src/http/whatsapp.route.ts:2532-2596 | A ride that is confirmed or in progress is cancelled for an edit exactly when a pin arrives in an editing stage with a stored route and a plan for the new one; no text ever does it |
| BookingEdits.UnderwaySparedIff | apps/api-gateway/src/http/whatsapp.route.ts:1954-1972 | On a whole run no ride underway is cancelled for an edit if and only if no such pin arrives while one is underway |
| BookingEdits.PinCancelsAConfirmedRide | apps/api-gateway/src/http/whatsapp.route.ts:2532-2596 | A run of four uninterrupted messages ends with a confirmed and paid ride, its hold active, cancelled for an edit |
| BookingEdits.EditedRouteIsFresh | apps/api-gateway/src/http/whatsapp.route.ts:2558-2612 | The route after an edit carries fresh prices with a minimum of at least 3000 NGN, the new place at the edited end, and the ride's (typed) or the pending route's (pin) place at the other end |
| BookingEdits.InterruptedEdit | apps/api-gateway/src/http/whatsapp.route.ts:2019-2042 | If the edit stops after k of its six writes, the ride is cancelled from the first one on, and the rider lands on the new route only after all six, or when the missing ones would change nothing |
| BookingEdits.PinCanCancelAnotherRide | apps/api-gateway/src/http/whatsapp.route.ts:2560-2596 | A reachable state in which a pin for a new quote cancels an older, revived ride with another destination |
| BookingEnds.StepKeepsEndsIff | apps/api-gateway/src/http/whatsapp.route.ts:2558-2612 | While editing, a step parts the pending route from the active ride, at the end not edited, exactly when it exchanges the active ride, its chat state or the route: an outside change, a last seat, or an interrupted switch from a group request, to something with another end |
| BookingEnds.PinKeepsTheRidesEnd | apps/api-gateway/src/http/whatsapp.route.ts:2560-2566 | On every run without such a step a pin edit keeps the other end of the very ride it cancels |
| BookingEnds.PinKeepsTheEndIff | apps/api-gateway/src/http/whatsapp.route.ts:2560-2566 | In any state, a pin edit keeps the other end of the ride it cancels if and only if the two agree there |
| BookingPayment.PaidOnEveryRun | apps/api-gateway/src/http/whatsapp.route.ts:2103-2218 | On every run, interrupted or not, each acceptance directly follows a returned hold call for the same ride and fare, the fare is the bid's price, the bid is the one the last command named in the batch then stored, and no ride has money taken twice |
| BookingPayment.PaidIsHeldIff | packages/db/src/clients/wallet.client.ts:240-291 | For a payment that succeeds or is cut short, the acceptance goes out exactly with the third write, and the fare is then what is held if and only if the ride had no hold row before, or an active one of that amount |
| BookingMoney.MoneyIsConserved | packages/db/src/clients/wallet.client.ts:240-291 | On every run, whatever is handled, interrupted, reused or released, balance and active holds together change by exactly what is paid in |
| BookingPayment.InterruptedPayment | apps/api-gateway/src/http/whatsapp.route.ts:2178-2218 | What each cut of the five writes leaves of history, holds, balance, choice, ride state and active ride; exactly the cut behind two writes leaves a hold call, no acceptance and no choice to pay for again |
| BookingPayment.PayingAgain | apps/api-gateway/src/http/whatsapp.route.ts:2141-2203 | A payment cut right behind its hold can be repeated, with one charge in all, if and only if what is left in the wallet covers the fare once more; otherwise paying again changes nothing and the fare stays held |
| BookingPayment.AReusedHoldFallsShort | apps/api-gateway/src/http/whatsapp.route.ts:2178-2218 | A run that ends with a driver accepted at 5000 NGN while 3000 NGN are held |
| BookingPayment.FailedPaymentMovesNothing | apps/api-gateway/src/http/whatsapp.route.ts:2104-2203 | A payment that fails publishes nothing and leaves holds and balance as they were; it keeps the active ride exactly when the chosen ride still has its chat state |
| BookingPayment.AFailedPaymentCanLoseAnotherRide | apps/api-gateway/src/http/whatsapp.route.ts:2106-2117 | A reachable state in which paying for an expired choice takes away another, live ride |
| BookingPayment.AcceptTakesTheNamedBid | apps/api-gateway/src/http/whatsapp.route.ts:2281-2318 | A text that stores a choice stores the bid its number names in the last batch, or the only bid for a bare accept |
| BookingActive.ActiveRideAfter | apps/api-gateway/src/http/whatsapp.route.ts:1598-1607 | The active ride goes exactly when a cancellation reason is given, an edit succeeds, or a payment finds the chosen ride expired; only the last seat moves it; every other message keeps it |
| BookingActive.ChoiceStaysIff | apps/api-gateway/src/http/whatsapp.route.ts:2401-2415 | A step, cut short anywhere or not, keeps the choice that waits for payment with the active ride exactly when it does not make another ride active: a booking or a last seat that gets as far as that write, or an outside change |
| BookingActive.ChoiceStaysOnRunIff | apps/api-gateway/src/http/whatsapp.route.ts:2401-2415 | On a whole run the choice is for the active ride at every moment if and only if no step makes another ride active |
| BookingPayment.StepKeepsPay | apps/api-gateway/src/http/whatsapp.route.ts:2281-2415 | Every step, also one cut short, keeps the payment invariant over history, hold rows and pending choice |
| Booking.DecisionPublishes | apps/api-gateway/src/http/whatsapp.route.ts:1584-3968 | Requests, payments and edit cancellations are published by their own branches only, in all of the handler |
| BookingWebhook.Webhook.HandleMessage | apps/api-gateway/src/http/whatsapp.route.ts:1584-3968 | The handler writes what was decided, in order; wherever one of its writes fails, the payment invariant holds and the fare floor is kept unless it stops behind a placeholder; the active ride changes for the stated reasons only, and one that is underway goes only by a reasoned cancellation or a pin in an editing stage |
| BookingWebhook.Webhook.CreateRideHold | packages/db/src/clients/wallet.client.ts:240-291 | Fails if the balance does not cover the amount or the transaction does; an existing row answers without moving money; else the amount leaves the balance |
| BookingWebhook.Webhook.Pay | apps/api-gateway/src/http/whatsapp.route.ts:2103-2218 | Behind an attempt to pay: charged, accepted, confirmed and no choice left, or nothing moved and published, the active ride gone exactly if the chosen ride has expired, the choice kept exactly if the driver can still take it |
| BookingWebhook.Webhook.EditRide | apps/api-gateway/src/http/whatsapp.route.ts:1977-2042 | A planned inline edit drops the ride, its choice and its chat state and waits for a price; one that cannot be planned changes nothing; one without an address only asks for it |
| BookingWebhook.Webhook.HandlePin | apps/api-gateway/src/http/whatsapp.route.ts:2532-2732 | A pin that ends an edit drops the active ride for the new route; any other pin touches neither ride, choice nor money |
| BookingWebhook.Webhook.AcceptDriver | apps/api-gateway/src/http/whatsapp.route.ts:2281-2426 | The named bid becomes the choice, with the batch on record; the last seat moves the rider to the trip; a command that names no bid changes nothing |
| BookingWebhook.Webhook.CancelActive | apps/api-gateway/src/http/whatsapp.route.ts:1598-1607 | The ride is cancelled, its choice gone, its chat state left only where the cleanup failed; holds and balance stay |
| BookingWebhook.Webhook.HandleCancelReason | apps/api-gateway/src/http/whatsapp.route.ts:1584-1612 | Without a reason nothing changes; with one the ride and every booking key go |
| BookingConversation.SpeaksAsCalledFor | apps/api-gateway/src/http/whatsapp.route.ts:1584-3968 | The writes to stage, pending place, pending route and shown bids that a message makes are exactly those that its kind, the stage and the answers of map and language model call for; a route is quoted between the named places in their order, at the prices of its distance |
| BookingConversation.ConversationAfter | apps/api-gateway/src/http/whatsapp.route.ts:1584-3968 | Behind a message, stage, place, route and shown bids are the ones it calls for, and unchanged where it calls for nothing |
| BookingConversation.CutShort | apps/api-gateway/src/http/whatsapp.route.ts:1584-3968 | A message that fails behind any of its writes: once it has entered a stage, stage, route and place are those of the whole message; once it has left one, the pending place, and the quote that was open, are gone if they were to go, unless a reason was awaited |
| BidFlush.VisibleInTime | apps/api-gateway/src/kafka/consumer.ts:303-365 | While a ride stays in bidding, in every orderly interleaving of message handler, flush timer and rider view, a bid that is not in the stored batch has a timer pending or a handler at work, and is younger than 61 s plus three times the slack |
| BidFlush.BackInTime | apps/api-gateway/src/kafka/consumer.ts:194-231 | On every run whose views hide no bid, orderly or not, an unbatched bid has a timer pending or a handler at work, and less than 61 s plus three times the slack have passed since it came or since a view last stored a list that missed a bid |
| BidFlush.OrderlyNeverHides | apps/api-gateway/src/http/whatsapp.route.ts:2430-2443 | Orderly runs hide no bid and store no list that misses one, so that the bound counts from the arrival |
| BidFlush.ListHoldsTheLatest | apps/api-gateway/src/whatsapp-flows/bid-state.ts:114-128 | On every run no driver is listed twice, and what is listed of a driver is the last bid that arrived from that driver |
| BidFlush.AddBid | apps/api-gateway/src/whatsapp-flows/bid-state.ts:114-128 | A bid takes the place of the first one of its driver, or comes last if there is none; every other bid stays in its place |
| BidFlush.StepKeepsInv | apps/api-gateway/src/kafka/consumer.ts:194-231 | Every step of any handler that hides no bid keeps the invariant that ties unbatched bids to the window, the timer and the lists already read; bids that a view took out of the batch wait from then on |
| BidFlush.RunKeepsInv | apps/api-gateway/src/kafka/consumer.ts:194-231 | The same along whole runs |
| BidFlush.BoundIsTight | apps/api-gateway/src/kafka/consumer.ts:140-148 | With no slack a bid can wait 60.999 s, so the bound cannot be lowered |
| BidFlush.ForgetsIffSlow | apps/api-gateway/src/whatsapp-flows/bid-state.ts:222-230 | Some orderly run forgets a bid for ever if and only if handlers may take 30 s or more |
| BidFlush.ViewForgets | apps/api-gateway/src/http/whatsapp.route.ts:2430-2443 | The rider's own view, overlapping an arrival, takes a bid out of the batch again with nothing pending |
| BidFlush.StepKeepsWatchIff | apps/api-gateway/src/http/whatsapp.route.ts:2430-2443 | A step leaves an unbatched bid with no timer pending and no handler at work exactly when the view stores a list that misses a bid while nothing is pending or at work |
| BidFlush.WatchedIff | apps/api-gateway/src/kafka/consumer.ts:194-231 | On every run, orderly or not, each unbatched bid has a timer pending or a handler at work at every moment if and only if no store of the view hides one |
| BidFlush.TimeCanPass | apps/api-gateway/src/kafka/consumer.ts:194-231 | From every state of the invariant an orderly run lets any amount of time pass, so the bound is not met by a stuck clock |
| BidFlush.OfferIsARun | apps/api-gateway/src/kafka/consumer.ts:346-365 | A counter-offer handled without interruption is a run of the state machine |
| BidFlush.FlushIsARun | apps/api-gateway/src/kafka/consumer.ts:201-227 | So is a timer handled without interruption |
| BidFlush.Gateway.OnCounterOffer | apps/api-gateway/src/kafka/consumer.ts:279-382 | The branch's effect on the ride's list, batch, window, timer and chat state in each of its cases, late-bid rebuild included (which starts the list over), and on no other ride |
| BidFlush.Gateway.FlushTimerFires | apps/api-gateway/src/kafka/consumer.ts:201-227 | A timer of a live ride flushes or reschedules; of a ride that is over it only disappears |
| BidFlush.Gateway.ScheduleBidFlush | apps/api-gateway/src/kafka/consumer.ts:194-231 | One timer per ride |
| BidFlush.Gateway.ShouldNotify | apps/api-gateway/src/whatsapp-flows/bid-state.ts:222-230 | True exactly when no window is open, and then opens one |
| BidFlush.Gateway.CleanupRideKeys | apps/api-gateway/src/whatsapp-flows/bid-state.ts:208-220 | The ride's keys go and no other ride's; no rider can be flushed to for it, and a pending timer stays |
| Outbox.PublishedInOrder | apps/ride-service/outbox/outbox-publisher.ts:39-97 | For any number of interleaved publishers with crashes, lost acknowledgements, failed sends and failed marks, the log without repeats is a prefix of the outbox order and holds every row marked published |
| Outbox.StepKeepsInv | apps/ride-service/outbox/outbox-publisher.ts:49-97 | Every protocol step keeps the log in order and each publisher's batch consistent with it |
| Outbox.FirstAppearancesAreAPrefix | apps/ride-service/outbox/outbox-publisher.ts:63-77 | A log in which every row is preceded by all earlier rows is, without repeats, exactly a prefix |
| Outbox.PollShrinks | apps/ride-service/outbox/outbox-publisher.ts:49-97 | As a run of the protocol, a poll of an idle publisher without faults leaves what one batch does not cover |
| Outbox.Drains | apps/ride-service/outbox/outbox-publisher.ts:39-97 | As a run of the protocol, k such polls leave what k batches do not cover, so a lone publisher drains the outbox |
| Outbox.EveryRowCanBePublished | apps/ride-service/outbox/outbox-publisher.ts:39-97 | From every state of the invariant, whatever has failed, any further rows can be created and a publisher that restarts can get every row stored and marked |
| Outbox.OutboxPublisher.TimerFires | apps/ride-service/outbox/outbox-publisher.ts:39-47 | k timer polls of the process without faults leave what k batches do not cover; after the shutdown they do nothing |
| Outbox.OutboxPublisher.RunUntilShutdown | apps/ride-service/outbox/outbox-publisher.ts:99-118 | Polls that fire after the shutdown change nothing |
| Outbox.PollIsARun | apps/ride-service/outbox/outbox-publisher.ts:39-97 | Whatever the imperative poll does to table and broker, a run of the protocol does |
| Outbox.SendingIsARun | apps/ride-service/outbox/outbox-publisher.ts:63-77 | The send loop with its early break is a run of the protocol |
| Outbox.OutboxPublisher.Poll | apps/ride-service/outbox/outbox-publisher.ts:39-47 | A poll that overlaps another or follows the shutdown does nothing; one without faults leaves what a batch does not cover |
| Outbox.OutboxPublisher.DoPoll | apps/ride-service/outbox/outbox-publisher.ts:49-97 | The log grows by what was sent up to the first failure, and exactly the acknowledged rows are marked |
| Pipeline.AtMostOnceAndNothingDropped | packages/kafka-client/src/consumer.ts:30-77 | Over outbox, log and a crashing consumer, no event is applied twice, only logged events are, and every offset below the committed one was handled, parked, or lost by a failed park |
| Pipeline.EverythingCanArrive | packages/kafka-client/src/consumer.ts:30-77 | From every state of the invariant, further rows can be created, and once a publisher and the consumer restart, every row can be stored and each message of the partition from the committed offset on applied and committed |
| Pipeline.PartitionConsumer.ReadToEnd | packages/kafka-client/src/consumer.ts:30-77 | Whatever bodies, handler and dead-letter queue do, reading reaches the end of the partition; each offset is handled, parked or lost, by its own faults and the state of the dead-letter producer at that moment; exactly the rows of handled offsets are added to the applied ones, each once, and those of the others to the failed ones |
| Pipeline.FirstFailureDecides | packages/kafka-client/src/dlq.ts:7-43 | Reading on with no producer cached, a failing message is parked exactly when the first failing one could connect and the broker accepts the letter |
| Pipeline.OrderKeptIff | packages/kafka-client/src/consumer.ts:49-74 | One step keeps per-key outbox order if and only if it is not the late success of an event that failed before |
| Pipeline.AppliedInOutboxOrderIff | packages/kafka-client/src/consumer.ts:30-77 | Over a whole run, events are applied in outbox order per key if and only if no failed event succeeds late |
| Pipeline.OrderFromTheStart | packages/kafka-client/src/consumer.ts:30-77 | The same from the initial state, with no further assumption |
| Pipeline.FinalFailuresKeepOrder | packages/kafka-client/src/consumer.ts:49-74 | If no row whose delivery failed is ever handled afterwards, events are applied in outbox order per key |
| Pipeline.OrderCanBreak | packages/kafka-client/src/consumer.ts:49-74 | A run in which a repeated message succeeds after a later event of its key |
| Pipeline.PartitionInKeyOrder | apps/ride-service/outbox/outbox-publisher.ts:63-77 | The order of the whole log carries over, per key, to each partition |
| Pipeline.FirstConnectionDecides | packages/kafka-client/src/dlq.ts:7-43 | The producer is cached before it connects, so the first connection decides whether any later letter is parked |
| Pipeline.DeadLetters.SendToDlq | packages/kafka-client/src/dlq.ts:17-43 | Always returns; parks the letter or not |
| Pipeline.DeadLetters.GetDlqProducer | packages/kafka-client/src/dlq.ts:7-15 | Fails with its connection and fills the cache all the same |
| Pipeline.DeadLetters.DisconnectDlq | packages/kafka-client/src/dlq.ts:45-49 | Empties the cache |
| Pipeline.PartitionConsumer.EachMessage | packages/kafka-client/src/consumer.ts:36-77 | Never throws: the message counts as handled, parked or lost, and the position moves on |
| Idempotency.ClaimBound | apps/api-gateway/src/http/idempotency.ts:93-175 | For any number of interleaved requests: successes plus running executions are at most one for a present key plus expiries plus failed completion writes |
| Idempotency.ExecutesOnce | apps/api-gateway/src/http/idempotency.ts:93-175 | Without expiry or failed write: mutual exclusion and at most one success |
| Idempotency.ExpiryAllowsTwo | apps/api-gateway/src/http/idempotency.ts:93-112 | The bound is met: one expiry lets two requests succeed |
| Idempotency.EveryAnswerIsAccountedFor | apps/api-gateway/src/http/idempotency.ts:114-207 | Every response is the request's own result, the result of a completed execution with the same fingerprint, or a refusal to a request that never executed |
| Idempotency.CompletedIsReplayed | apps/api-gateway/src/http/idempotency.ts:177-207 | Without expiry and outside writes to the key: once a completion is stored, every later answered request replays that result under the same fingerprint and is refused as different under another, unless one of its own commands failed |
| Idempotency.CountersCount | apps/api-gateway/src/http/idempotency.ts:114-175 | Successes, expiries and failed writes are those of the run, counted one by one |
| Idempotency.ExecutedIs | apps/api-gateway/src/http/idempotency.ts:133-175 | What counts as executed is exactly what executions of the run returned, under their request's fingerprint |
| Idempotency.ParsePrint | apps/api-gateway/src/http/idempotency.ts:49-91 | A stored record is read back as it was written |
| Idempotency.CallIsARun | apps/api-gateway/src/http/idempotency.ts:114-207 | Whatever the imperative runner does to the record and answers, a run of the protocol does |
| Idempotency.ExecutionIsARun | apps/api-gateway/src/http/idempotency.ts:133-175 | So is the part that holds the lock |
| Idempotency.Redis.TryAcquireRequestLock | apps/api-gateway/src/http/idempotency.ts:93-112 | Acquires exactly an absent key, and then stores the processing record; a command that fails may still have stored it |
| Idempotency.Redis.ExecuteAndStore | apps/api-gateway/src/http/idempotency.ts:133-175 | Stores the result of a success, clears the lock after a failure, and answers accordingly for every fate of the writes |
| Idempotency.Redis.RunIdempotentJsonRequest | apps/api-gateway/src/http/idempotency.ts:114-207 | The runner's record and answer for every stored record, fingerprint and fate: a completed record that is read is replayed if and only if the fingerprints agree, one being processed gives a conflict, another fingerprint a mismatch, an absent key the request's own result; failing commands, lapses and unreadable records included |
| WebhookDedup.OneEffectPerMarker | apps/api-gateway/src/http/pouch.route.ts:85-134 | However often and concurrently delivered, and even if a dispatch that throws or dies had taken effect, effects plus open dispatches are at most one for a present marker plus expiries plus clearings behind a dispatch that had acted |
| WebhookDedup.ProcessedOncePerMarker | apps/api-gateway/src/http/pouch.route.ts:85-134 | Without expiry, and with dispatches that throw before they act, the event takes effect at most once |
| WebhookDedup.ExactlyOnceIff | apps/api-gateway/src/http/pouch.route.ts:108-134 | On any run without an expiry, with any number of deliveries, throws and deaths, the event takes effect exactly once if and only if some dispatch acts and none acts after the marker was cleared behind one that had |
| WebhookDedup.EffectsAreAccounted | apps/api-gateway/src/http/pouch.route.ts:85-134 | On any run, expiries included, each effect stands or was followed by a clearing of the marker |
| WebhookDedup.EffectsCount | apps/api-gateway/src/http/pouch.route.ts:85-134 | The effects are the dispatches of the run that act, counted one by one |
| WebhookDedup.DroppedIff | apps/api-gateway/src/http/pouch.route.ts:93-101 | On every run, expiries included, a delivery is dropped as a duplicate if and only if some claim set the marker and neither an expiry nor a landed clearing came after it |
| WebhookDedup.AnswersTellTheTruth | apps/api-gateway/src/http/pouch.route.ts:85-134 | On every run, a delivery was answered processed exactly if its own dispatch acted and returned, a failure tells whether it acted and whether it cleared the marker, and a duplicate did nothing |
| WebhookDedup.StandingIsFinal | apps/api-gateway/src/http/pouch.route.ts:93-101 | Without an expiry, an effect that stands has the marker, is the only one, and leaves no dispatch open |
| WebhookDedup.TwoEffects | apps/api-gateway/src/http/pouch.route.ts:246-300 | A run without expiry in which the event takes effect twice |
| WebhookDedup.RetryNeedsTheClear | apps/api-gateway/src/http/pouch.route.ts:127-133 | With no other delivery under way, the marker is stuck after a failed dispatch exactly when its clearing did not land |
| WebhookDedup.StuckDropsEverything | apps/api-gateway/src/http/pouch.route.ts:93-101 | A marker whose clearing was lost drops every delivery until it expires |
| PouchClient.PouchLiquifiaClient.CreatePayout | packages/pouch-client/src/client.ts:148-174 | One call of n requests, 1 to maxRetries+1 of them, uses one key, waits 500(2^(n-1) - 1) ms in all, makes at most one payout, and a success returns that payout |
| PouchClient.PouchLiquifiaClient.Request | packages/pouch-client/src/client.ts:226-271 | One request and the classification of its answer |
| PouchClient.Provider.Receive | packages/pouch-client/src/client.ts:148-174 | The assumed provider: a repeated key gives back the first payout |
| PouchClient.WhichAnswerEndsTheCall | packages/pouch-client/src/client.ts:202-224 | A call ends, short of its retry limit, exactly at a JSON answer that reports success or has a status below 500, also a 2xx that says it failed, or at the client's own timeout, thrown as a 408; every other answer, also a 4xx whose body is not JSON, is retried |
| PouchClient.RecoversWithinRetries | packages/pouch-client/src/client.ts:202-224 | A call whose exchanges stop being faulty within maxRetries returns the payout, with exactly that many requests |
| PouchClient.RequestsBound | packages/pouch-client/src/client.ts:202-224 | Bounds on requests and waiting time |
| Sweep.RetryFits | apps/api-gateway/src/treasury-sweep.ts:132-145 | With truthful numbers and a nondecreasing fee the single retry is positive, strictly smaller and always fits; one naira more might not |
| Sweep.TreasurySweep.SweepAccount | apps/api-gateway/src/treasury-sweep.ts:100-156 | One account: the first amount is the largest whole naira that leaves the known fee; the single retry comes exactly after a truthful shortfall that leaves something to pay, and is its exact remainder; at most one payout, other accounts untouched, and the sum recorded is the sum moved if and only if nothing was lost or misreported |
| Sweep.TreasurySweep.SweepOnce | apps/api-gateway/src/treasury-sweep.ts:77-168 | A whole pass: an account is tried if and only if it is not seeded, not the treasury, its balance can be read and covers the minimum, and the fee and one naira; money conserves, each account has at most one payout, overlapping passes do nothing; the sum recorded is that of the accounts whose last answer was heard and no rejection, the sum moved that of those paid |
| Sweep.TotalsDiffer | apps/api-gateway/src/treasury-sweep.ts:103-154 | Recorded plus unheard equals moved plus wrongly recorded, and the last two sums vanish exactly when every account swept got an honest last answer |
| Sweep.TreasurySweep.ResolveDestination | apps/api-gateway/src/treasury-sweep.ts:42-75 | The destination is looked up until it is found and then kept |
| Sweep.Ledger.CreatePayout | apps/api-gateway/src/treasury-sweep.ts:110-121 | The assumed provider: rejects what the balance does not cover and conserves money |
| Sweep.SweepMissesFailures | apps/api-gateway/src/treasury-sweep.ts:118-124 | The sweep recognises exactly three of the nine failure statuses of the client library |
| Sweep.RejectsIs | apps/api-gateway/src/treasury-sweep.ts:118-124 | An answer is recorded exactly if it is heard and its status holds neither FAIL nor REJECT anywhere |
| Pricing.FareChain | packages/config/src/pricing.ts:30-79 | The suggested fare is the least multiple of 100 NGN that covers 3000 NGN and 300 NGN a kilometre; the least offer lies between floor and suggestion; the suggestion validates; exactly a negative distance has no fare |
| Pricing.FaresGrow | packages/config/src/pricing.ts:30-48 | Suggested fare and least offer never fall with the distance |
| Pricing.ValidFromMinimumUp | packages/config/src/pricing.ts:50-79 | An offer is valid if and only if it is at least 3000 NGN and at least 72 per cent of the suggested fare, rounded half up to the kobo |
| Pricing.LeastOfferIs | packages/config/src/pricing.ts:76-79 | The reported least offer is 72 per cent of the suggested fare to half a kobo, unless the floor of 3000 NGN binds: exactly for suggested fares up to 4166.67 NGN |
| Pricing.RefusedBecause | packages/config/src/pricing.ts:56-71 | A refused offer is named not positive, below the floor where that binds, or below the discount where it does not |
| Pricing.PricesAre | packages/config/src/pricing.ts:30-79 | A trip has exactly one suggested fare and one least offer: the least multiple of 100 NGN covering 3000 NGN and the rate, and the least amount covering 3000 NGN and 72 per cent of it |
| Pricing.FeesAddUp | packages/config/src/pricing.ts:99-117 | Levy 30 NGN, service fee 200 NGN, VAT 7.5 per cent to half a kobo; the shares add up to the fare and are nonnegative |
| Pricing.SharesGrow | packages/config/src/pricing.ts:99-117 | Both shares are nondecreasing, also across the clamp |
| Pricing.FloorPaysDriver | packages/config/src/pricing.ts:99-117 | From the floor up nothing is clamped and the driver gets at least 2545 NGN |
| Pricing.ClampedExactlyBelow | packages/config/src/pricing.ts:99-117 | The clamp applies exactly below 248.65 NGN |
| Pricing.EveryValidOfferPaysDriver | packages/config/src/pricing.ts:50-117 | Any valid offer for any distance pays the driver at least 2545 NGN |
| Polyline.RoundTrip | packages/config/src/routing.ts:287-336 | Decoding the standard encoding of two or more points on the globe returns them |
| Polyline.ValueRoundTrip | packages/config/src/routing.ts:315-336 | One value survives the 32-bit arithmetic if and only if it lies in [-2^30, 2^30) |
| Polyline.ReencodesIff | packages/config/src/routing.ts:287-336 | A string that decodes re-encodes to itself if and only if it is a sequence of canonical groups, of up to seven bytes each |
| Polyline.CanonicalDecodes | packages/config/src/routing.ts:287-336 | Canonical strings decode, unless they hold fewer than two points |
| Polyline.DecodeConsumesAll | packages/config/src/routing.ts:287-313 | On any string the decoder throws or has consumed all of it, each value advancing the index, and each point is the one before, or the origin, plus its two values |
| Polyline.ValueBits | packages/config/src/routing.ts:315-336 | What any group of any length stands for: it ends with its first byte without the continuation bit, each byte puts its five bits at five times its place modulo 32, bits above the 32nd are lost, and the signed pattern is undone from zig-zag |
| Polyline.ChunksDecode | packages/config/src/routing.ts:315-336 | The shift-and-or loop reads back a number from its 5-bit chunks |
| Polyline.BitOrDisjoint | packages/config/src/routing.ts:326-332 | Or-ing in a chunk above the bits collected so far is addition |
| Polyline.DecodePolyline | packages/config/src/routing.ts:287-313 | The loop computes the decoding, with the two error cases |
| Polyline.DecodePolylineValue | packages/config/src/routing.ts:315-336 | The chunk loop computes one value and the next index |
| Polyline.ComputeBounds | packages/config/src/routing.ts:262-285 | The result is the least box around the points |
| EnvParser.RoundTrip | packages/config/src/load-workspace-env.ts:21-56 | Parsing the quoted, escaped printing of a well-formed map returns the map if and only if no value holds a literal backslash-n |
| EnvParser.BlockForms | packages/config/src/load-workspace-env.ts:35-50 | A raw block, its one-line form and its quoted one-line form read the same, whatever its lines contain, and none of them becomes an entry |
| EnvParser.BlockFormsInAFile | packages/config/src/load-workspace-env.ts:21-56 | In the content of a file, behind printed entries and in front of any lines, the three forms of a block read the same |
| EnvParser.OpenBlockTakesAll | packages/config/src/load-workspace-env.ts:38-47 | A block without its END line takes the rest of the file |
| EnvParser.UnescapeEscape | packages/config/src/load-workspace-env.ts:52-52 | Unescaping undoes escaping exactly for values without a literal backslash-n, and shortens all others |
| EnvParser.SplitJoined | packages/config/src/load-workspace-env.ts:23-23 | Splitting undoes joining for lines without breaks or trailing returns |
| EnvParser.SplitReturned | packages/config/src/load-workspace-env.ts:23-23 | So it does for lines joined with carriage return and line feed |
| EnvParser.IgnoredLine | packages/config/src/load-workspace-env.ts:24-34 | A blank line, a comment and a line without a name change nothing, wherever an entry could stand |
| EnvParser.PaddedKey | packages/config/src/load-workspace-env.ts:30-36 | White space around a key does not belong to it; that around a value does |
| EnvParser.ValueOnOneLine | packages/config/src/load-workspace-env.ts:30-54 | An entry on one line, quoted with either quote, unquoted or with a quote at one end only, gives its key the value less one pair of matching quotes, unescaped |
| EnvParser.ParseWorkspaceEnv | packages/config/src/load-workspace-env.ts:21-56 | The nested index loop computes the specified map, and ends |
| EnvParser.LoadWorkspaceEnv | packages/config/src/load-workspace-env.ts:58-71 | A variable the process already has keeps its value |
| Token.DecodeEncode | apps/api-gateway/src/auth/local.ts:16-27 | Base64url decoding undoes encoding on every byte string although the padding is cut off |
| Token.EncodeDecode | apps/api-gateway/src/auth/local.ts:16-27 | Encoding undoes decoding of URL-alphabet text if and only if the text is canonical |
| Token.EncodedPart | apps/api-gateway/src/auth/local.ts:16-22 | Encoded text holds no dot and no padding |
| Token.CreatedVerifies | apps/api-gateway/src/auth/local.ts:82-122 | With a secret of 32 characters or more, a created token verifies to its user at exactly the times before its expiry, if the user id is not empty, and appended parts do not matter |
| Token.SignatureBinds | apps/api-gateway/src/auth/local.ts:98-112 | Other content in front of a signature, or another secret, is rejected if and only if the HMAC differs |
| Token.SignedDocument | apps/api-gateway/src/auth/local.ts:98-122 | A correctly signed token verifies exactly if its document is an object that names a user, has this type, a numeric issue time and a numeric expiry still ahead; another type is rejected for that |
| Token.RefusedUnread | apps/api-gateway/src/auth/local.ts:82-106 | A short or missing secret, and then a token without three parts, are refused before any signature is compared |
| Token.SplitToken | apps/api-gateway/src/auth/local.ts:100-103 | A token splits back into its three parts |

## Left out

- Floating-point rounding in fares, fees, coordinates and distances: exact arithmetic instead.
- Text parsing, language-model intents, geocoding and route planning: any parsed command, place and distance.
- Concurrent messages of one rider: messages of a rider are taken to be handled in turn.
- A swallowed failure to read the state of a ride, which makes it look as if it were not under way: in the model the state changes before the message and back behind it.
- A partly failed `storeWhatsappRide`, which writes three keys at once: one write in the model.
- Group rides, group seats and withdrawals, beyond their effect on stage and active ride; seat prices are outside the fare floor.
- Ride requests and acceptances from the Flow endpoints and the WebSocket handlers.
- Replies, conversation log, ratings, activity log and the driver's photos.
- Expiry of the bid list and of the stored batch (15 minutes each): the list is renewed with every bid and the batch is stored later.
- Declining a bid in the Flow endpoint, a read and a write that can overlap an arrival.
- Failing Redis calls inside the bid handlers, and a gateway restart, which loses the timers.
- BidFlush.VisibleInTime: covers one ride whose counter-offers are consumed one at a time and whose chat state and phone stay present, as the rebuild of a late bid belongs to no such stretch.
- `findUnpublished` is taken to return the oldest unpublished rows in creation order, and the broker to keep one partition per key.
- KafkaJS: a producer that never connected is taken to reject its sends.
- Header flattening in the consumer, topic lists and subscription options.
- Rebalancing to a second consumer of the same group.
- The HTTP plumbing around the idempotent runner, the canonical JSON of the fingerprint, and `maxRetries` below zero, where the payout client throws an undefined error.
- Signature checks of the webhooks and the aliasing of payload fields.
- WebhookDedup.TwoEffects: counts dispatches that act; whether settling or publishing twice is harmless further on rests on code that is not part of this model.
- BookingEnds.PinKeepsTheRidesEnd: says nothing of a ride whose chat state has expired, as then there is no end to compare with.
- PouchClient.Provider.Receive: assumes a provider that honours the idempotency key; its own failures are arbitrary.
- Sweep.Ledger.CreatePayout: assumes that the provider states the balance and the cost truthfully; deposits may arrive at any moment.
- Reserve, settle and release of withdrawals, which rest on code that is not part of this model.
- Token.EncodeDecode: text with characters outside the alphabet, which Node skips, is not modelled.
- HMAC-SHA256 and JSON are arbitrary functions with 32-byte digests and faithful documents; password hashing is left out.
- Haversine distances, bearings, viewport and duration parsing in the route planner.
- Simple list helpers, formatters and read-only routes.
