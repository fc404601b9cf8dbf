// When each transaction of the money tables commits, and what it leaves.
//
// Both are said of the order, the balance and the other orders' keys, not of
// the rows a transaction happens to look at: under the invariant of the tables
// nothing else can stand in its way.
module Effects {
  import opened Prelude
  import opened Orders
  import opened Ledger
  import opened Invariant
  import opened Transactions

  // No order but this one gains, loses or changes anything of its own.
  ghost predicate OnlyOrder(db: Db, next: Db, id: OrderId) {
    && (forall other: OrderId :: other != id ==>
          && Get(next.orders, other) == Get(db.orders, other) && EventsOf(next, other) == EventsOf(db, other)
          && Get(next.reservations, other) == Get(db.reservations, other) && Get(next.payouts, other) == Get(db.payouts, other))
    && (forall key: Key :: key.order != id ==> Get(next.intents, key) == Get(db.intents, key))
  }

  // The order went to a status by one event of this kind.
  predicate Went(db: Db, next: Db, id: OrderId, kind: string, status: Status, failure: Option<string>) {
    && id in db.orders && id in next.orders
    && next.orders[id] == db.orders[id].(status := status, version := db.orders[id].version + 1, failure := failure)
    && EventsOf(next, id) == EventsOf(db, id) + [Event(db.orders[id].version + 1, kind, Some(db.orders[id].status), status)]
  }

  // The order went through a status to the next by two events.
  predicate WentOn(db: Db, next: Db, id: OrderId, first: string, through: Status, second: string, status: Status) {
    && id in db.orders && id in next.orders
    && var row := db.orders[id];
       && next.orders[id] == row.(status := status, version := row.version + 2)
       && EventsOf(next, id) == EventsOf(db, id) + [Event(row.version + 1, first, Some(row.status), through),
                                                   Event(row.version + 2, second, Some(through), status)]
  }

  // The order has one open job of the topic: any worker may lease it from then
  // on, and none before.
  ghost predicate Queued(db: Db, topic: Topic, id: OrderId, from: Time) {
    && Open(db.outbox, topic, id) == 1
    && exists i :: 0 <= i < |db.outbox| && IsOpen(db.outbox[i], topic, id) && LeasableFrom(db.outbox[i], topic, from)
  }

  ghost predicate LeasableFrom(message: Message, topic: Topic, from: Time) {
    forall at: Time, maxAttempts: nat :: maxAttempts > 0 ==> (Leasable(message, topic, at, maxAttempts) <==> from <= at)
  }

  function StatusOf(db: Db, id: OrderId): Option<Status> {
    if id in db.orders then Some(db.orders[id].status) else None
  }

  // A transaction that moves one order, and writes besides only what is that
  // order's own.
  lemma MovesOnly(db: Db, next: Db, id: OrderId, kind: string, status: Status, failure: Option<string>)
    requires id in db.orders
    requires next.orders == Move(db, id, kind, status, failure).orders && next.events == Move(db, id, kind, status, failure).events
    requires forall other: OrderId :: other != id ==>
               Get(next.reservations, other) == Get(db.reservations, other) && Get(next.payouts, other) == Get(db.payouts, other)
    requires forall key: Key :: key.order != id ==> Get(next.intents, key) == Get(db.intents, key)
    ensures Went(db, next, id, kind, status, failure) && OnlyOrder(db, next, id)
  {
  }

  // ---------------------------------------------------------------- on-ramp

  // The balance left when all that is reserved and the operating buffer are
  // kept back covers one more fee.
  ghost predicate Affords(db: Db, observed: int, buffer: int) {
    observed - SumReserved(db.reservations) - BufferOf(db, buffer) >= KXLM_ISSUE_FEE_RESERVE
  }

  function BufferOf(db: Db, buffer: int): int {
    match db.treasury
    case Some(t) => t.buffer
    case None => buffer
  }

  // The order's terms are those of the request.
  predicate AsRequested(row: OrderRow, request: OnrampRequest) {
    && row.direction == Onramp && row.fiat == request.fiat && row.stroops == request.stroops
    && row.assetCode == "KXLM" && row.assetIssuer == request.treasuryAccount
    && row.source == Some(request.treasuryAccount) && row.memo == request.memo && row.expiresAt == None
  }

  // An order is admitted exactly when the balance affords its fee and its id
  // and key are new; it has the terms of its request, and its fee is reserved
  // until its quote expires.
  lemma ReserveOutcome(db: Db, request: OnrampRequest, observed: int, buffer: int, strict: bool)
    requires Inv(db, strict)
    ensures var result := ReserveAndCreate(db, request, observed, buffer);
            && (result.Committed? <==> Affords(db, observed, buffer) && request.id !in db.orders && request.key !in db.idempotency)
            && (result.RolledBack? ==> result.error == if Affords(db, observed, buffer) then UniqueViolation else InsufficientLiquidity)
            && (result.Committed? ==> Admits(db, result.db, request, observed, buffer))
  {
    hide Inv, SlotFree, SumReserved, Admits;
    Reserves(db, strict);
    SlotsFree(db, request.id, strict);
    if request.id !in db.orders {
      Unused(db, request.id, strict);
      if ReserveAndCreate(db, request, observed, buffer).Committed? {
        AdmittedRows(db, request, observed, buffer);
      }
    }
  }

  lemma AdmittedRows(db: Db, request: OnrampRequest, observed: int, buffer: int)
    requires ReserveAndCreate(db, request, observed, buffer).Committed? && EventsOf(db, request.id) == []
    requires SumReserved(db.reservations) == match db.treasury { case Some(t) => t.reserved case None => 0 }
    ensures Admits(db, ReserveAndCreate(db, request, observed, buffer).db, request, observed, buffer)
  {
    hide SumReserved;
  }

  ghost predicate Admits(db: Db, next: Db, request: OnrampRequest, observed: int, buffer: int) {
    var id := request.id;
    && OnlyOrder(db, next, id) && id in next.orders && AsRequested(next.orders[id], request)
    && next.orders[id].status == Created && next.orders[id].failure == None
    && EventsOf(next, id) == [Event(1, "order.created", None, Created)]
    && next.reservations == db.reservations[id := Reservation(10_000, Reserved, request.quoteExpiresAt)]
    && next.treasury == Some(Treasury(observed, SumReserved(db.reservations) + 10_000, BufferOf(db, buffer)))
    && next.idempotency == db.idempotency[request.key := Binding(request.requestHash, id)]
    && next.intents == db.intents && next.outbox == db.outbox && next.checkouts == db.checkouts
  }

  // The counter is the sum of what is reserved.
  lemma Reserves(db: Db, strict: bool)
    requires Inv(db, strict)
    ensures SumReserved(db.reservations) == match db.treasury { case Some(t) => t.reserved case None => 0 }
  {
    hide ViewOk, HashesUnique, BindingsOk, CheckoutsOk, OutboxOk;
  }

  // An id without an order has nothing else either.
  lemma Unused(db: Db, id: OrderId, strict: bool)
    requires Inv(db, strict) && id !in db.orders
    ensures ViewOf(db, id) == View(None, [], None, None, None, None, None, NO_JOBS)
  {
    hide TreasuryOk, HashesUnique, BindingsOk, CheckoutsOk, OutboxOk;
    At(db, id, strict);
  }

  predicate ProviderFree(db: Db, provider: string, requestId: Option<string>) {
    && provider !in db.checkouts
    && (requestId.Some? ==> forall other :: other in db.checkouts ==> db.checkouts[other].requestId != requestId)
  }

  // A checkout is attached exactly to a created order and under ids of its
  // own; it asks for the order's fiat amount.
  lemma AttachOutcome(db: Db, id: OrderId, provider: string, requestId: Option<string>, channel: string, strict: bool)
    requires Inv(db, strict)
    ensures var result := AttachCheckout(db, id, provider, requestId, channel);
            && (result.Committed? <==> StatusOf(db, id) == Some(Created) && ProviderFree(db, provider, requestId))
            && (result.RolledBack? ==>
                  result.error == if id !in db.orders then NotFound
                                  else if db.orders[id].status != Created then InvalidState else UniqueViolation)
            && (result.Committed? ==>
                  var next := result.db;
                  && OnlyOrder(db, next, id) && Went(db, next, id, "checkout.created", PaymentPending, db.orders[id].failure)
                  && next.checkouts == db.checkouts[provider := Checkout(id, db.orders[id].fiat, requestId, channel)]
                  && next.reservations == db.reservations && next.treasury == db.treasury && next.idempotency == db.idempotency)
  {
    hide Inv, SlotFree, EventsOf, Went, OnlyOrder;
    SlotsFree(db, id, strict);
    if AttachCheckout(db, id, provider, requestId, channel).Committed? {
      MovesOnly(db, AttachCheckout(db, id, provider, requestId, channel).db, id, "checkout.created", PaymentPending, db.orders[id].failure);
    }
  }

  // The reservation of an order is given back, and with it its fee.
  ghost predicate GaveBack(db: Db, next: Db, id: OrderId) {
    && id in db.reservations && db.reservations[id].status == Reserved
    && next.reservations == db.reservations[id := db.reservations[id].(status := Released)]
    && SumReserved(next.reservations) == SumReserved(db.reservations) - 10_000
    && db.treasury.Some? && next.treasury == Some(db.treasury.value.(reserved := SumReserved(next.reservations)))
  }

  lemma GivenBack(db: Db, next: Db, id: OrderId, status: ReservationStatus, strict: bool)
    requires Inv(db, strict) && id in db.orders && db.orders[id].direction == Onramp && status != Reserved
    requires db.orders[id].status in {Created, PaymentPending, StellarProcessing}
    requires id in next.reservations
    requires next.reservations == db.reservations[id := Reservation(10_000, status, next.reservations[id].expiresAt)]
    requires next.treasury == GiveBack(db.treasury, 10_000)
    ensures id in db.reservations && db.reservations[id].status == Reserved && db.reservations[id].amount == 10_000
    ensures SumReserved(next.reservations) == SumReserved(db.reservations) - 10_000
    ensures db.treasury.Some? && next.treasury == Some(db.treasury.value.(reserved := SumReserved(next.reservations)))
  {
    hide ViewOk, HashesUnique, BindingsOk, CheckoutsOk, OutboxOk;
    ReservationOf(db, id, strict);
    SumReservedUpdate(db.reservations, id, next.reservations[id]);
  }

  // A checkout that failed ends exactly a created order.
  lemma FailCheckoutOutcome(db: Db, id: OrderId, strict: bool)
    requires Inv(db, strict)
    ensures var result := FailCheckout(db, id);
            && (result.Committed? <==> StatusOf(db, id) == Some(Created))
            && (result.RolledBack? ==> result.error == if id in db.orders then InvalidState else NotFound)
            && (result.Committed? ==>
                  && OnlyOrder(db, result.db, id) && GaveBack(db, result.db, id)
                  && Went(db, result.db, id, "checkout.failed", PaymentFailed, Some("checkout_failed"))
                  && result.db.idempotency == db.idempotency && result.db.checkouts == db.checkouts)
  {
    hide Inv, SlotFree, EventsOf, Went, OnlyOrder;
    SlotsFree(db, id, strict);
    if StatusOf(db, id) == Some(Created) {
      AwaitingIsOnramp(db, id, strict);
      ReservationOf(db, id, strict);
      GivenBack(db, FailCheckout(db, id).db, id, Released, strict);
      MovesOnly(db, FailCheckout(db, id).db, id, "checkout.failed", PaymentFailed, Some("checkout_failed"));
    }
  }

  // An unknown checkout is noted exactly on a created order, and changes
  // nothing else.
  lemma UnknownCheckoutOutcome(db: Db, id: OrderId)
    ensures var result := MarkCheckoutUnknown(db, id);
            && result.Committed?
            && (StatusOf(db, id) != Some(Created) ==> result.db == db)
            && (StatusOf(db, id) == Some(Created) ==>
                  result.db == db.(orders := db.orders[id := db.orders[id].(failure := Some("checkout_unknown"))]))
  {
  }

  // A payment is accepted exactly for an order that awaits it or was paid
  // already. The first time, the transfer of the order's stroops is requested
  // and its job queued.
  lemma PaymentOutcome(db: Db, id: OrderId, eventId: string, now: Time, strict: bool)
    requires Inv(db, strict)
    ensures var result := ConfirmPayment(db, id, eventId, now);
            && (result.Committed? <==> StatusOf(db, id) in {Some(PaymentPending), Some(StellarProcessing), Some(Completed)})
            && (result.Committed? && StatusOf(db, id) != Some(PaymentPending) ==> result.db == db)
            && (result.RolledBack? ==> result.error == if id in db.orders then InvalidState else NotFound)
            && (StatusOf(db, id) == Some(PaymentPending) ==>
                  && OnlyOrder(db, result.db, id)
                  && WentOn(db, result.db, id, "payment.confirmed", PaymentConfirmed, "stellar.transfer_requested", StellarProcessing)
                  && result.db.intents == db.intents[Key(id, Transfer) := Intent(db.orders[id].stroops, Pending, None, None, 0)]
                  && Key(id, Transfer) !in db.intents && Queued(result.db, SettleOnramp, id, now)
                  && result.db.reservations == db.reservations && result.db.treasury == db.treasury
                  && (eventId in db.callbacks ==> eventId in result.db.callbacks && result.db.callbacks[eventId].order == Some(id)
                                                  && result.db.callbacks[eventId].result == "matched"))
  {
    hide Inv, SlotFree, Open, EventsOf;
    SlotsFree(db, id, strict);
    if StatusOf(db, id) == Some(PaymentPending) {
      NoIntents(db, id, strict);
      NoJobs(db, id, strict);
      JobQueued(db, ConfirmPayment(db, id, eventId, now).db, db.outbox, SettleOnramp, id, now);
      StartedLog(db, id, eventId, now);
    }
  }

  lemma StartedLog(db: Db, id: OrderId, eventId: string, now: Time)
    requires id in db.orders
    ensures WentOn(db, StartSettlement(db, id, eventId, now), id,
                   "payment.confirmed", PaymentConfirmed, "stellar.transfer_requested", StellarProcessing)
    ensures OnlyOrder(db, StartSettlement(db, id, eventId, now), id)
  {
    hide WentOn, OnlyOrder, Move;
    var moved := TwoMoves(db, id, "payment.confirmed", PaymentConfirmed, "stellar.transfer_requested", StellarProcessing);
    SameOrder(db, moved, StartSettlement(db, id, eventId, now), id,
              "payment.confirmed", PaymentConfirmed, "stellar.transfer_requested", StellarProcessing);
  }

  // An order in none of the three stages of work has no open job.
  lemma NoJobs(db: Db, id: OrderId, strict: bool)
    requires Inv(db, strict)
    ensures JobsOf(db.outbox, id)
         == Jobs(if StatusOf(db, id) == Some(StellarProcessing) then 1 else 0,
                 if StatusOf(db, id) == Some(RetirementProcessing) then 1 else 0,
                 if StatusOf(db, id) == Some(WithdrawalProcessing) then 1 else 0)
  {
    hide Replay, TreasuryOk, HashesUnique, BindingsOk, CheckoutsOk, OutboxOk, JobsOf;
    At(db, id, strict);
  }

  // A job added where there was none is the one to lease.
  lemma JobQueued(db: Db, next: Db, outbox: seq<Message>, topic: Topic, id: OrderId, now: Time)
    requires Open(outbox, topic, id) == 0 && next.outbox == outbox + [NewMessage(topic, id, now)]
    ensures Queued(next, topic, id, now)
  {
    var job := NewMessage(topic, id, now);
    assert next.outbox[..|outbox|] == outbox;
    assert next.outbox[|outbox|] == job && LeasableFrom(job, topic, now);
  }

  // One row of the sweep of expired reservations.
  lemma ReleaseExpiredOutcome(db: Db, id: OrderId, strict: bool)
    requires Inv(db, strict)
    ensures var result := ReleaseExpired(db, id);
            && (result.Committed? <==> id in db.reservations)
            && (result.Committed? && StatusOf(db, id) != Some(PaymentPending) ==> result.db == db)
            && (StatusOf(db, id) == Some(PaymentPending) ==>
                  && result.Committed? && OnlyOrder(db, result.db, id) && GaveBack(db, result.db, id)
                  && Went(db, result.db, id, "order.expired", Expired, db.orders[id].failure)
                  && result.db.intents == db.intents && result.db.outbox == db.outbox)
  {
    hide Inv, SlotFree, EventsOf, Went, OnlyOrder;
    SlotsFree(db, id, strict);
    if id !in db.orders {
      Unused(db, id, strict);
    } else if db.orders[id].status == PaymentPending {
      AwaitingIsOnramp(db, id, strict);
      ReservationOf(db, id, strict);
      GivenBack(db, ReleaseExpired(db, id).db, id, Released, strict);
      MovesOnly(db, ReleaseExpired(db, id).db, id, "order.expired", Expired, db.orders[id].failure);
    }
  }

  // ---------------------------------------------------------------- settlement

  // A transfer is confirmed with its order: the fee is no longer held, and the
  // job is done.
  ghost predicate SettledAs(db: Db, next: Db, key: Key, ledgerAt: Time) {
    var id := key.order;
    && OnlyOrder(db, next, id) && id in db.orders && key in db.intents
    && Went(db, next, id, "stellar.transfer_confirmed", Completed, db.orders[id].failure)
    && next.intents == db.intents[key := db.intents[key].(status := Confirmed, ledgerAt := Some(ledgerAt))]
    && id in next.reservations && next.reservations[id].status == Consumed
    && SumReserved(next.reservations) == SumReserved(db.reservations) - 10_000
    && db.treasury.Some? && next.treasury == Some(db.treasury.value.(reserved := SumReserved(next.reservations)))
    && Open(next.outbox, SettleOnramp, id) == 0
  }

  lemma SettlementCompleted(db: Db, key: Key, ledgerAt: Time, strict: bool)
    requires Inv(db, strict) && key in db.intents && BeingSettled(db, key) && key.order in db.reservations
    ensures SettledAs(db, CompleteSettlement(db, key, ledgerAt), key, ledgerAt)
  {
    hide Inv, Open, Finish, Went, OnlyOrder;
    var id := key.order;
    var next := CompleteSettlement(db, key, ledgerAt);
    SettledIsOnramp(db, id, strict);
    ReservationOf(db, id, strict);
    MovesOnly(db, next, id, "stellar.transfer_confirmed", Completed, db.orders[id].failure);
    GivenBack(db, next, id, Consumed, strict);
    JobsFinish(db.outbox, SettleOnramp, id, id);
  }

  // It is confirmed exactly with its stored hash while its order is being
  // settled, or was confirmed already.
  lemma ConfirmOutcome(db: Db, key: Key, hash: Hash, ledgerAt: Time, strict: bool)
    requires Inv(db, strict) && key.purpose == Transfer
    ensures var result := Confirm(db, key, hash, ledgerAt);
            && (result.Committed? <==>
                  && key in db.intents
                  && (db.intents[key].status == Confirmed
                      || (db.intents[key].hash == Some(hash) && StatusOf(db, key.order) == Some(StellarProcessing))))
            && (result.Committed? ==>
                  if db.intents[key].status == Confirmed then result.db == db else SettledAs(db, result.db, key, ledgerAt))
  {
    hide Inv, SlotFree, CompleteSettlement, SettledAs;
    if key in db.intents {
      ProcessingIntent(db, key, strict);
      SlotsFree(db, key.order, strict);
      if StatusOf(db, key.order) == Some(StellarProcessing) {
        SettledIsOnramp(db, key.order, strict);
        ReservationOf(db, key.order, strict);
        SettlementCompleted(db, key, ledgerAt, strict);
      }
    }
  }

  // An intent and its order failed together, and the job that carried them is
  // done; what is reserved stays reserved.
  ghost predicate FailedAs(db: Db, next: Db, key: Key, kind: string, status: Status, code: string, topic: Topic) {
    && OnlyOrder(db, next, key.order) && key in db.intents
    && Went(db, next, key.order, kind, status, Some(code))
    && next.intents == db.intents[key := db.intents[key].(status := Failed)]
    && Open(next.outbox, topic, key.order) == 0
    && next.reservations == db.reservations && next.treasury == db.treasury
  }

  lemma IntentFailed(db: Db, key: Key, kind: string, status: Status, code: string, topic: Topic)
    requires key in db.intents && key.order in db.orders
    ensures FailedAs(db, FailIntent(db, key, kind, status, code, topic), key, kind, status, code, topic)
  {
    hide Open, Finish, EventsOf, Went, OnlyOrder;
    MovesOnly(db, FailIntent(db, key, kind, status, code, topic), key.order, kind, status, Some(code));
    JobsFinish(db.outbox, topic, key.order, key.order);
  }

  // A transfer fails exactly while its order is being settled.
  lemma FailPermanentOutcome(db: Db, key: Key, strict: bool)
    requires Inv(db, strict)
    ensures var result := FailPermanent(db, key);
            && (result.Committed? <==> key in db.intents && StatusOf(db, key.order) == Some(StellarProcessing))
            && (result.Committed? ==>
                  FailedAs(db, result.db, key, "stellar.failed", StellarFailed, "stellar_permanent_failure", SettleOnramp))
  {
    hide Inv, SlotFree, FailIntent, FailedAs;
    SlotsFree(db, key.order, strict);
    if key in db.intents && key.order in db.orders {
      IntentFailed(db, key, "stellar.failed", StellarFailed, "stellar_permanent_failure", SettleOnramp);
    }
  }

  // A hash is stored with a transfer, whatever was stored before, exactly when
  // no other transaction has it, and counts as one more attempt.
  lemma SubmittedOutcome(db: Db, key: Key, hash: Hash)
    requires key in db.intents
    ensures var result := MarkSubmitted(db, key, hash);
            var intent := db.intents[key];
            && (result.Committed? <==> forall other :: other in db.intents && other != key ==> db.intents[other].hash != Some(hash))
            && (result.RolledBack? ==> result.error == UniqueViolation)
            && (result.Committed? ==>
                  result.db == db.(intents := db.intents[key := Intent(intent.amount, Submitted, Some(hash), intent.ledgerAt, intent.attempts + 1)]))
  {
  }

  // A hash in doubt stays, and one that was rejected goes; the attempt counts.
  lemma DoubtOutcome(db: Db, key: Key, hash: Hash, strict: bool)
    requires Inv(db, strict) && key in db.intents
    ensures var intent := db.intents[key];
            && MarkUnknown(db, key) == Committed(db.(intents := db.intents[key := intent.(status := UnknownOutcome)]))
            && ResetSubmitted(db, key)
            == Committed(db.(intents := db.intents[key := Intent(intent.amount, Pending, None, intent.ledgerAt, intent.attempts)]))
            && (key.purpose == Retirement ==>
                  (ResetRetirementHash(db, key, hash).Committed? <==>
                     intent.hash == Some(hash) && StatusOf(db, key.order) == Some(RetirementProcessing)))
            && (ResetRetirementHash(db, key, hash).Committed? ==>
                  ResetRetirementHash(db, key, hash).db
                  == db.(intents := db.intents[key := Intent(intent.amount, Pending, None, None, intent.attempts)]))
  {
    hide Inv;
    ProcessingIntent(db, key, strict);
    if key.purpose == Retirement {
      RetirementIs(db, key, strict);
    }
  }

  // ---------------------------------------------------------------- off-ramp

  // The order's terms are those of the request to sell.
  predicate AsOffered(row: OrderRow, request: OfframpRequest) {
    && row.direction == Offramp && row.fiat == request.fiat && row.stroops == request.stroops
    && row.assetCode == "KXLM" && row.assetIssuer == request.assetIssuer
    && row.source == Some(request.depositAccount) && row.memo == Some(request.memo)
    && row.expiresAt == Some(request.expiresAt)
  }

  // A sale is created exactly under a new id and a new key, on the terms of
  // its request, and reserves nothing.
  lemma SaleOutcome(db: Db, request: OfframpRequest, strict: bool)
    requires Inv(db, strict)
    ensures var result := CreateOfframp(db, request);
            && (result.Committed? <==> request.id !in db.orders && request.key !in db.idempotency)
            && (result.RolledBack? ==> result.error == UniqueViolation)
            && (result.Committed? ==> Offers(db, result.db, request))
  {
    hide Inv, SlotFree, EventsOf, Offers;
    SlotsFree(db, request.id, strict);
    if request.id !in db.orders {
      Unused(db, request.id, strict);
      if CreateOfframp(db, request).Committed? {
        OfferedRows(db, request);
      }
    }
  }

  ghost predicate Offers(db: Db, next: Db, request: OfframpRequest) {
    var id := request.id;
    && OnlyOrder(db, next, id) && id in next.orders && AsOffered(next.orders[id], request)
    && next.orders[id].status == AssetPending && next.orders[id].failure == None
    && EventsOf(next, id) == [Event(1, "order.created", None, Created),
                              Event(2, "deposit.instructions_issued", Some(Created), AssetPending)]
    && next.idempotency == db.idempotency[request.key := Binding(request.requestHash, id)]
    && next.reservations == db.reservations && next.treasury == db.treasury
    && next.intents == db.intents && next.outbox == db.outbox
  }

  lemma OfferedRows(db: Db, request: OfframpRequest)
    requires CreateOfframp(db, request).Committed? && EventsOf(db, request.id) == []
    ensures Offers(db, CreateOfframp(db, request).db, request)
  {
  }

  // A sale ends without a deposit exactly while it awaits one.
  lemma DepositClosedOutcome(db: Db, id: OrderId, strict: bool)
    requires Inv(db, strict)
    ensures var expired, invalid := ExpireDeposit(db, id), RecordAssetInvalid(db, id);
            && (expired.Committed? <==> StatusOf(db, id) == Some(AssetPending))
            && (invalid.Committed? <==> StatusOf(db, id) == Some(AssetPending))
            && (expired.Committed? ==>
                  && OnlyOrder(db, expired.db, id)
                  && Went(db, expired.db, id, "order.expired", Expired, db.orders[id].failure)
                  && expired.db.intents == db.intents && expired.db.outbox == db.outbox)
            && (invalid.Committed? ==>
                  && OnlyOrder(db, invalid.db, id)
                  && Went(db, invalid.db, id, "asset.invalid", AssetInvalid, Some("deposit_mismatch"))
                  && invalid.db.intents == db.intents && invalid.db.outbox == db.outbox)
  {
    hide Inv, SlotFree, EventsOf, Went, OnlyOrder;
    SlotsFree(db, id, strict);
    if StatusOf(db, id) == Some(AssetPending) {
      MovesOnly(db, ExpireDeposit(db, id).db, id, "order.expired", Expired, db.orders[id].failure);
      MovesOnly(db, RecordAssetInvalid(db, id).db, id, "asset.invalid", AssetInvalid, Some("deposit_mismatch"));
    }
  }

  // The payment carries the order's memo to its deposit account, in full and
  // in its asset, and is on the ledger.
  predicate PaysFor(row: OrderRow, payment: Payment) {
    && row.source == Some(payment.to) && row.memo == Some(payment.memo)
    && payment.assetCode == row.assetCode && payment.assetIssuer == row.assetIssuer && payment.amount == row.stroops
    && payment.hash != "" && payment.ledgerAt.Some?
  }

  // No Stellar transaction of another order has the hash, and no deposit one
  // with the same first 24 characters.
  predicate NewDeposit(db: Db, id: OrderId, hash: Hash) {
    && (forall key :: key in db.intents && key != Key(id, Deposit) ==> db.intents[key].hash != Some(hash))
    && (forall key :: key in db.intents && key.purpose == Deposit && db.intents[key].hash.Some? ==>
          var other := db.intents[key].hash.value;
          (if |other| <= 24 then other else other[..24]) != (if |hash| <= 24 then hash else hash[..24]))
  }

  predicate WasReceived(status: Option<Status>) {
    status in {Some(AssetReceived), Some(RetirementProcessing), Some(WithdrawalProcessing), Some(Completed)}
  }

  // A deposit is taken exactly for a sale that awaits one, from a payment that
  // pays for it and backs nothing else, or for one that already has its own.
  // It is kept as evidence and its retirement queued.
  lemma DepositOutcome(db: Db, id: OrderId, payment: Payment, now: Time, strict: bool)
    requires Inv(db, strict)
    ensures var result := RecordAssetReceived(db, id, payment, now);
            && (result.Committed? <==>
                  || WasReceived(StatusOf(db, id))
                  || (StatusOf(db, id) == Some(AssetPending) && PaysFor(db.orders[id], payment) && NewDeposit(db, id, payment.hash)))
            && (result.Committed? && WasReceived(StatusOf(db, id)) ==> result.db == db)
            && (StatusOf(db, id) == Some(AssetPending) && !PaysFor(db.orders[id], payment) ==> result == RolledBack(InvalidDeposit))
            && (result.Committed? && StatusOf(db, id) == Some(AssetPending) ==> Deposited(db, result.db, id, payment, now))
  {
    hide Inv, SlotFree, StartRetirement, Deposited;
    SlotsFree(db, id, strict);
    if StatusOf(db, id) == Some(AssetPending) {
      NoIntents(db, id, strict);
      AwaitsDeposit(db, id, strict);
      NoJobs(db, id, strict);
      DepositTaken(db, id, payment, now);
    }
  }

  ghost predicate Deposited(db: Db, next: Db, id: OrderId, payment: Payment, now: Time) {
    && OnlyOrder(db, next, id)
    && WentOn(db, next, id, "asset.received", AssetReceived, "retirement.requested", RetirementProcessing)
    && next.intents == db.intents[Key(id, Deposit) := Intent(db.orders[id].stroops, Confirmed, Some(payment.hash), payment.ledgerAt, 1)]
                                 [Key(id, Retirement) := Intent(db.orders[id].stroops, Pending, None, None, 0)]
    && Queued(next, RetireOfframp, id, now)
  }

  lemma AwaitsDeposit(db: Db, id: OrderId, strict: bool)
    requires Inv(db, strict) && id in db.orders && db.orders[id].status == AssetPending
    ensures db.orders[id].direction == Offramp
  {
    hide Replay, TreasuryOk, HashesUnique, BindingsOk, CheckoutsOk, OutboxOk;
    At(db, id, strict);
  }

  lemma DepositTaken(db: Db, id: OrderId, payment: Payment, now: Time)
    requires id in db.orders && Open(db.outbox, RetireOfframp, id) == 0
    ensures Deposited(db, StartRetirement(db, id, payment, now), id, payment, now)
  {
    hide Open, Queued, OnlyOrder, WentOn, Move;
    var next := StartRetirement(db, id, payment, now);
    var moved := TwoMoves(db, id, "asset.received", AssetReceived, "retirement.requested", RetirementProcessing);
    SameOrder(db, moved, next, id, "asset.received", AssetReceived, "retirement.requested", RetirementProcessing);
    JobQueued(db, next, db.outbox, RetireOfframp, id, now);
  }

  lemma TwoMoves(db: Db, id: OrderId, first: string, through: Status, second: string, status: Status) returns (moved: Db)
    requires id in db.orders
    ensures moved == Move(Move(db, id, first, through, db.orders[id].failure), id, second, status, db.orders[id].failure)
    ensures moved == db.(orders := moved.orders, events := moved.events)
    ensures WentOn(db, moved, id, first, through, second, status) && OnlyOrder(db, moved, id)
  {
    moved := Move(Move(db, id, first, through, db.orders[id].failure), id, second, status, db.orders[id].failure);
    MovesOnly(db, Move(db, id, first, through, db.orders[id].failure), id, first, through, db.orders[id].failure);
  }

  // What is added for the order itself changes neither.
  lemma SameOrder(db: Db, moved: Db, next: Db, id: OrderId, first: string, through: Status, second: string, status: Status)
    requires WentOn(db, moved, id, first, through, second, status) && OnlyOrder(db, moved, id)
    requires next.orders == moved.orders && next.events == moved.events
    requires next.reservations == moved.reservations && next.payouts == moved.payouts
    requires forall key: Key :: key.order != id ==> Get(next.intents, key) == Get(moved.intents, key)
    ensures WentOn(db, next, id, first, through, second, status) && OnlyOrder(db, next, id)
  {
  }

  // A retirement goes on to its withdrawal: its job is done and the payout queued.
  ghost predicate Withdraws(db: Db, next: Db, key: Key, kind: string, now: Time) {
    && OnlyOrder(db, next, key.order) && key.order in db.orders
    && Went(db, next, key.order, kind, WithdrawalProcessing, db.orders[key.order].failure)
    && Open(next.outbox, RetireOfframp, key.order) == 0 && Queued(next, SimulatePayout, key.order, now)
  }

  lemma WithdrawalBegun(db: Db, key: Key, kind: string, now: Time, intent: Intent)
    requires key in db.intents && key.order in db.orders && Open(db.outbox, SimulatePayout, key.order) == 0
    ensures Withdraws(db, ToWithdrawal(db, key.order, kind, now).(intents := db.intents[key := intent]), key, kind, now)
  {
    hide Open, Finish, Queued, EventsOf, Went, OnlyOrder;
    var next := ToWithdrawal(db, key.order, kind, now).(intents := db.intents[key := intent]);
    JobsFinish(db.outbox, RetireOfframp, key.order, key.order);
    MovesOnly(db, next, key.order, kind, WithdrawalProcessing, db.orders[key.order].failure);
    JobQueued(db, next, Finish(db.outbox, RetireOfframp, key.order), SimulatePayout, key.order, now);
    WithdrawalJobs(db.outbox, key.order, now, key.order);
  }

  // A retirement is claimed exactly while it is wanted and nothing was sent
  // for it, under a hash no other transaction has.
  lemma ClaimOutcome(db: Db, key: Key, hash: Hash, strict: bool)
    requires Inv(db, strict) && key.purpose == Retirement
    ensures var result := SaveRetirementHash(db, key, hash);
            && (result.Committed? <==>
                  && StatusOf(db, key.order) == Some(RetirementProcessing) && key in db.intents && db.intents[key].hash == None
                  && forall other :: other in db.intents && other != key ==> db.intents[other].hash != Some(hash))
            && (result.Committed? ==>
                  var intent := db.intents[key];
                  result.db == db.(intents := db.intents[key := Intent(intent.amount, Submitted, Some(hash), None, intent.attempts + 1)]))
  {
    hide Inv;
    if key in db.intents {
      ProcessingIntent(db, key, strict);
    }
  }

  // A retirement is simulated exactly while it is wanted and nothing was sent
  // for it, or was simulated already.
  lemma SimulationOutcome(db: Db, key: Key, now: Time, strict: bool)
    requires Inv(db, strict) && key.purpose == Retirement
    ensures var result := SimulateRetirement(db, key, now);
            && (result.Committed? <==>
                  && key in db.intents
                  && (db.intents[key].status == Simulated
                      || (StatusOf(db, key.order) == Some(RetirementProcessing) && db.intents[key].hash == None)))
            && (result.Committed? && db.intents[key].status == Simulated ==> result.db == db)
            && (result.Committed? && db.intents[key].status != Simulated ==>
                  && Withdraws(db, result.db, key, "retirement.simulated", now)
                  && result.db.intents == db.intents[key := db.intents[key].(status := Simulated)])
  {
    hide Inv, SlotFree, ToWithdrawal, Withdraws;
    SlotsFree(db, key.order, strict);
    if key in db.intents {
      ProcessingIntent(db, key, strict);
      RetirementIs(db, key, strict);
      NoJobs(db, key.order, strict);
      if StatusOf(db, key.order) == Some(RetirementProcessing) {
        WithdrawalBegun(db, key, "retirement.simulated", now, db.intents[key].(status := Simulated));
      }
    }
  }

  // How far a retirement has come, by the status of its order.
  lemma RetirementIs(db: Db, key: Key, strict: bool)
    requires Inv(db, strict) && key in db.intents && key.purpose == Retirement
    ensures key.order in db.orders && db.orders[key.order].direction == Offramp
    ensures db.intents[key].status == Simulated ==>
              && db.intents[key].hash.None? && db.intents[key].ledgerAt.None?
              && db.orders[key.order].status in {WithdrawalProcessing, Completed}
    ensures db.orders[key.order].status == RetirementProcessing ==> db.intents[key].status in {Pending, Submitted}
  {
    hide Replay, TreasuryOk, HashesUnique, BindingsOk, CheckoutsOk, OutboxOk;
    At(db, key.order, strict);
    assert key == Key(key.order, Retirement);
  }

  // A retirement is confirmed exactly with its stored hash while it is wanted,
  // or was confirmed already.
  lemma RetirementOutcome(db: Db, key: Key, hash: Hash, ledgerAt: Time, now: Time, strict: bool)
    requires Inv(db, strict) && key.purpose == Retirement
    ensures var result := ConfirmRetirement(db, key, hash, ledgerAt, now);
            && (result.Committed? <==>
                  && key in db.intents
                  && (db.intents[key].status == Confirmed
                      || (StatusOf(db, key.order) == Some(RetirementProcessing) && db.intents[key].hash == Some(hash))))
            && (result.Committed? && db.intents[key].status == Confirmed ==> result.db == db)
            && (result.Committed? && db.intents[key].status != Confirmed ==>
                  && Withdraws(db, result.db, key, "retirement.confirmed", now)
                  && result.db.intents == db.intents[key := db.intents[key].(status := Confirmed, ledgerAt := Some(ledgerAt))])
  {
    hide Inv, SlotFree, ToWithdrawal, Withdraws;
    SlotsFree(db, key.order, strict);
    if key in db.intents {
      ProcessingIntent(db, key, strict);
      NoJobs(db, key.order, strict);
      if StatusOf(db, key.order) == Some(RetirementProcessing) {
        WithdrawalBegun(db, key, "retirement.confirmed", now, db.intents[key].(status := Confirmed, ledgerAt := Some(ledgerAt)));
      }
    }
  }

  // A retirement fails exactly while it is wanted.
  lemma RefusalOutcome(db: Db, key: Key, strict: bool)
    requires Inv(db, strict)
    ensures var result := FailRetirement(db, key);
            && (result.Committed? <==> key in db.intents && StatusOf(db, key.order) == Some(RetirementProcessing))
            && (result.Committed? ==>
                  FailedAs(db, result.db, key, "retirement.failed", RetirementFailed, "retirement_failed", RetireOfframp))
  {
    hide Inv, SlotFree, FailIntent, FailedAs;
    SlotsFree(db, key.order, strict);
    if key in db.intents && key.order in db.orders {
      IntentFailed(db, key, "retirement.failed", RetirementFailed, "retirement_failed", RetireOfframp);
    }
  }

  // A payout is made exactly for an order whose asset is retired: its fiat
  // amount, once, under a reference of its own.
  lemma PayoutOutcome(db: Db, id: OrderId, index: nat, strict: bool)
    requires Inv(db, strict) && PayoutJob(db, id, index)
    ensures var result := CompletePayout(db, id, index);
            && (result.Committed? <==> StatusOf(db, id) in {Some(WithdrawalProcessing), Some(Completed)})
            && (StatusOf(db, id) == Some(Completed) ==> result.db == db)
            && (StatusOf(db, id) == Some(WithdrawalProcessing) ==>
                  && OnlyOrder(db, result.db, id) && id !in db.payouts
                  && Went(db, result.db, id, "payout.simulated", Completed, db.orders[id].failure)
                  && id in result.db.payouts && result.db.payouts[id] == Payout(db.orders[id].fiat, "sandbox-payout-" + id)
                  && result.db.intents == db.intents && Open(result.db.outbox, SimulatePayout, id) == 0)
  {
    hide Inv, SlotFree, Open, FinishMessage, EventsOf, Went, OnlyOrder;
    SlotsFree(db, id, strict);
    CurrentJob(db, id, index, strict);
    if db.orders[id].status == Completed {
      RepeatedPayout(db, id, index, strict);
    } else if db.orders[id].status == WithdrawalProcessing {
      AwaitsPayout(db, id, strict);
      NoJobs(db, id, strict);
      PayoutJobs(db, id, index, id);
      MovesOnly(db, PayOut(db, id, index), id, "payout.simulated", Completed, db.orders[id].failure);
    }
  }

  lemma AwaitsPayout(db: Db, id: OrderId, strict: bool)
    requires Inv(db, strict) && id in db.orders && db.orders[id].status == WithdrawalProcessing
    ensures Key(id, Retirement) in db.intents && id !in db.payouts
  {
    hide Replay, TreasuryOk, HashesUnique, BindingsOk, CheckoutsOk, OutboxOk;
    At(db, id, strict);
  }

  // ---------------------------------------------------------------- jobs

  // A lease keeps every worker away until it ends, and counts towards the
  // limit; nothing else about the job or any other changes.
  lemma LeaseOutcome(db: Db, index: nat, topic: Topic, owner: string, now: Time, until: Time, limit: nat, at: Time, maxAttempts: nat)
    requires index < |db.outbox| && Leasable(db.outbox[index], topic, now, limit) && until >= now
    ensures var result := TakeLease(db, index, owner, until);
            && result.Committed? && result.db == db.(outbox := db.outbox[index := result.db.outbox[index]])
            && SameJob(db.outbox[index], result.db.outbox[index]) && IsOpen(db.outbox[index], topic, db.outbox[index].order)
            && result.db.outbox[index].attempts == db.outbox[index].attempts + 1 <= limit
            && (Leasable(result.db.outbox[index], topic, at, maxAttempts) <==> until < at && db.outbox[index].attempts + 1 < maxAttempts)
  {
  }

  // A job put off may be leased exactly from its new time on, by any worker,
  // while attempts are left; every other message stays as it is.
  lemma RetryOutcome(db: Db, key: Key, availableAt: Time, i: nat, at: Time, maxAttempts: nat)
    requires key in db.intents && i < |db.outbox|
    ensures var result := RetryLater(db, key, availableAt);
            && result.Committed? && result.db == db.(outbox := result.db.outbox) && |result.db.outbox| == |db.outbox|
            && (if IsOpen(db.outbox[i], SettleOnramp, key.order)
                then SameJob(db.outbox[i], result.db.outbox[i])
                     && (Leasable(result.db.outbox[i], SettleOnramp, at, maxAttempts) <==>
                           availableAt <= at && db.outbox[i].attempts < maxAttempts)
                else result.db.outbox[i] == db.outbox[i])
  {
  }

  // A retirement job that ran out of attempts, that nobody holds and for which
  // nothing was sent.
  predicate Stuck(db: Db, message: Message, now: Time, maxAttempts: nat) {
    && message.topic == RetireOfframp && !message.processed && message.attempts >= maxAttempts
    && (message.lease.Some? ==> message.lease.value.until <= now)
    && Key(message.order, Retirement) in db.intents && db.intents[Key(message.order, Retirement)].hash == None
  }

  // A requeue makes exactly the stuck jobs leasable again, from now on.
  lemma RequeueOutcome(db: Db, now: Time, maxAttempts: int, i: nat, strict: bool)
    requires Inv(db, strict) && i < |db.outbox|
    ensures var result := RequeueRetirements(db, now, maxAttempts);
            && (result.Committed? <==> maxAttempts > 0)
            && (result.Committed? ==>
                  && result.db == db.(outbox := result.db.outbox) && |result.db.outbox| == |db.outbox|
                  && if Stuck(db, db.outbox[i], now, maxAttempts)
                     then SameJob(db.outbox[i], result.db.outbox[i]) && LeasableFrom(result.db.outbox[i], RetireOfframp, now)
                     else result.db.outbox[i] == db.outbox[i])
  {
    hide Inv, Open;
    var message := db.outbox[i];
    var key := Key(message.order, Retirement);
    if maxAttempts > 0 && Stuck(db, message, now, maxAttempts) {
      NoJobs(db, message.order, strict);
      OpenNone(db.outbox, RetireOfframp, message.order);
      assert IsOpen(db.outbox[i], RetireOfframp, message.order);
      ProcessingIntent(db, key, strict);
      RetirementIs(db, key, strict);
    }
  }
}
