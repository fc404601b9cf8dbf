// The use cases that drive the repositories: idempotent creation and payment
// callbacks.
module Workflows {
  import opened Prelude
  import opened Orders
  import opened Ledger
  import opened Invariant
  import opened Transactions
  import opened Effects
  import opened Repositories
  import opened Requests
  import opened Memos
  import opened Deposits

  // ---------------------------------------------------------------- creation

  datatype Replay = Missing | Found(order: OrderId) | Conflicting

  function FindReplay(db: Db, key: IdemKey, requestHash: string): Replay {
    if key !in db.idempotency then Missing
    else if db.idempotency[key].requestHash != requestHash then Conflicting
    else Found(db.idempotency[key].order)
  }

  datatype Gateway = CheckoutMade(provider: string, requestId: Option<string>, channel: string) | NoOutcome | Declined

  datatype Outcome =
    | Made(order: OrderId)
    | Replayed(order: OrderId)
    | CheckoutUnknown(order: OrderId)
    | Conflict
    | NotMade(error: Error)
    | CheckoutDeclined

  function FailureOf(db: Db, id: OrderId): Option<string> {
    if id in db.orders then db.orders[id].failure else None
  }

  // A repeated request gets its order back, with an error while the outcome of
  // its checkout is unknown.
  function ReplayOutcome(db: Db, id: OrderId): Outcome {
    if FailureOf(db, id) == Some("checkout_unknown") then CheckoutUnknown(id) else Replayed(id)
  }

  // The tables and outcome of one create on the tables it finds, whatever
  // happened to them before.
  function CreateOrder(db: Db, request: OnrampRequest, observed: int, buffer: int, gateway: Gateway): (Db, Outcome) {
    match FindReplay(db, request.key, request.requestHash)
    case Found(id) => (db, ReplayOutcome(db, id))
    case Conflicting => (db, Conflict)
    case Missing =>
      match ReserveAndCreate(db, request, observed, buffer)
      case RolledBack(error) => (db, NotMade(error))
      case Committed(reserved) => CheckedOut(reserved, request.id, gateway)
  }

  function CheckedOut(db: Db, id: OrderId, gateway: Gateway): (Db, Outcome) {
    match gateway
    case CheckoutMade(provider, requestId, channel) =>
      (match AttachCheckout(db, id, provider, requestId, channel)
       case Committed(attached) => (attached, Made(id))
       case RolledBack(error) => (db, NotMade(error)))
    case NoOutcome =>
      (match MarkCheckoutUnknown(db, id)
       case Committed(marked) => (marked, CheckoutUnknown(id))
       case RolledBack(error) => (db, NotMade(error)))
    case Declined =>
      (match FailCheckout(db, id)
       case Committed(failed) => (failed, CheckoutDeclined)
       case RolledBack(_) => (db, CheckoutDeclined))
  }

  class OnrampUsecase {
    const repository: Database

    constructor (repository: Database)
      ensures this.repository == repository
    {
      this.repository := repository;
    }

    method Create(request: OnrampRequest, observed: int, buffer: int, gateway: Gateway) returns (outcome: Outcome)
      modifies repository
      ensures (repository.Tables(), outcome) == CreateOrder(old(repository.Tables()), request, observed, buffer, gateway)
    {
      match FindReplay(repository.Tables(), request.key, request.requestHash)
      case Found(id) => return ReplayOutcome(repository.Tables(), id);
      case Conflicting => return Conflict;
      case Missing => outcome := CreateMissed(request, observed, buffer, gateway);
    }

    // The rest of a create whose lookup found nothing. Other requests may have
    // committed since, so nothing is known of the tables: the reservation's
    // unique key decides, and a request that loses the race looks again.
    method CreateMissed(request: OnrampRequest, observed: int, buffer: int, gateway: Gateway) returns (outcome: Outcome)
      modifies repository
      ensures (repository.Tables(), outcome) == CreateOrder(old(repository.Tables()), request, observed, buffer, gateway)
    {
      hide SlotFree, LockTreasury, EventsOf;
      var failure := repository.ReserveAndCreate(request, observed, buffer);
      if failure.Some? {
        match FindReplay(repository.Tables(), request.key, request.requestHash)
        case Found(id) => return ReplayOutcome(repository.Tables(), id);
        case Conflicting => return Conflict;
        case Missing => return NotMade(failure.value);
      }
      outcome := Checkout(request.id, gateway);
    }

    method Checkout(id: OrderId, gateway: Gateway) returns (outcome: Outcome)
      modifies repository
      ensures (repository.Tables(), outcome) == CheckedOut(old(repository.Tables()), id, gateway)
    {
      hide SlotFree, LockTreasury, EventsOf, Move, Release;
      match gateway
      case CheckoutMade(provider, requestId, channel) =>
        var failure := repository.AttachCheckout(id, provider, requestId, channel);
        return if failure.None? then Made(id) else NotMade(failure.value);
      case NoOutcome =>
        repository.MarkCheckoutUnknown(id);
        return CheckoutUnknown(id);
      case Declined =>
        var _ := repository.FailCheckout(id);
        return CheckoutDeclined;
    }
  }

  // What a checkout leaves of the order's binding and reservation.
  lemma CheckoutKeepsBinding(db: Db, id: OrderId, gateway: Gateway)
    ensures var next := CheckedOut(db, id, gateway).0;
            && next.idempotency == db.idempotency && next.reservations.Keys == db.reservations.Keys
  {
    hide SlotFree, EventsOf;
  }

  // A create binds its key if it reserves anything, and then it reserves for
  // exactly the order the key is bound to.
  lemma CreateBinds(db: Db, request: OnrampRequest, observed: int, buffer: int, gateway: Gateway)
    ensures var (next, outcome) := CreateOrder(db, request, observed, buffer, gateway);
            || next == db
            || (&& request.key !in db.idempotency && request.id !in db.reservations
                && next.idempotency == db.idempotency[request.key := Binding(request.requestHash, request.id)]
                && next.reservations.Keys == db.reservations.Keys + {request.id})
  {
    hide SlotFree, EventsOf, LockTreasury, CheckedOut;
    match ReserveAndCreate(db, request, observed, buffer)
    case RolledBack(_) =>
    case Committed(reserved) => CheckoutKeepsBinding(reserved, request.id, gateway);
  }

  // What a create of a new order leaves of it: its terms, and a reservation of
  // one fee that is held exactly while the order is alive.
  ghost predicate CreatedAs(db: Db, next: Db, request: OnrampRequest, status: Status, failure: Option<string>) {
    var id := request.id;
    && OnlyOrder(db, next, id) && id in next.orders && AsRequested(next.orders[id], request)
    && next.orders[id].status == status && next.orders[id].failure == failure
    && id in next.reservations && next.treasury.Some? && next.treasury.value.reserved == SumReserved(next.reservations)
    && next.reservations[id] == Reservation(10_000, if status == PaymentFailed then Released else Reserved, request.quoteExpiresAt)
    && SumReserved(next.reservations) == SumReserved(db.reservations) + (if status == PaymentFailed then 0 else 10_000)
    && next.idempotency == db.idempotency[request.key := Binding(request.requestHash, id)]
  }

  // What a create under a new key answers and leaves, for every answer of the
  // gateway: an order that cannot be admitted leaves nothing; one that the
  // gateway declined has failed and holds nothing back; one whose checkout is
  // unknown keeps its reservation; one that was made awaits its payment.
  lemma CreateOutcome(db: Db, request: OnrampRequest, observed: int, buffer: int, gateway: Gateway, strict: bool)
    requires Inv(db, strict) && request.key.operation == Onramp && request.key !in db.idempotency
    ensures var (next, outcome) := CreateOrder(db, request, observed, buffer, gateway);
            if !Affords(db, observed, buffer) then next == db && outcome == NotMade(InsufficientLiquidity)
            else if request.id in db.orders then next == db && outcome == NotMade(UniqueViolation)
            else match gateway
              case Declined => outcome == CheckoutDeclined && CreatedAs(db, next, request, PaymentFailed, Some("checkout_failed"))
              case NoOutcome => outcome == CheckoutUnknown(request.id) && CreatedAs(db, next, request, Created, Some("checkout_unknown"))
              case CheckoutMade(provider, requestId, channel) =>
                if ProviderFree(db, provider, requestId)
                then && outcome == Made(request.id) && CreatedAs(db, next, request, PaymentPending, None)
                     && next.checkouts == db.checkouts[provider := Checkout(request.id, request.fiat, requestId, channel)]
                else outcome == NotMade(UniqueViolation) && CreatedAs(db, next, request, Created, None)
  {
    hide Inv, Affords, ReserveAndCreate, AttachCheckout, FailCheckout, MarkCheckoutUnknown, Admits, GaveBack, Went, OnlyOrder, AsRequested, SumReserved;
    ReserveOutcome(db, request, observed, buffer, strict);
    if ReserveAndCreate(db, request, observed, buffer).Committed? {
      var reserved := ReserveAndCreate(db, request, observed, buffer).db;
      ReserveAndCreateKept(db, request, observed, buffer, strict);
      AdmittedIs(db, reserved, request, observed, buffer, strict);
      match gateway
      case Declined =>
        FailCheckoutOutcome(reserved, request.id, strict);
        DeclinedIs(db, reserved, FailCheckout(reserved, request.id).db, request);
      case NoOutcome =>
        UnknownCheckoutOutcome(reserved, request.id);
        UnknownIs(db, reserved, MarkCheckoutUnknown(reserved, request.id).db, request);
      case CheckoutMade(provider, requestId, channel) =>
        AttachOutcome(reserved, request.id, provider, requestId, channel, strict);
        if AttachCheckout(reserved, request.id, provider, requestId, channel).Committed? {
          MadeIs(db, reserved, AttachCheckout(reserved, request.id, provider, requestId, channel).db, request);
        }
    }
  }

  lemma AdmittedIs(db: Db, reserved: Db, request: OnrampRequest, observed: int, buffer: int, strict: bool)
    requires Admits(db, reserved, request, observed, buffer) && Inv(reserved, strict)
    ensures CreatedAs(db, reserved, request, Created, None)
    ensures reserved.orders[request.id].fiat == request.fiat
    ensures reserved.checkouts == db.checkouts
  {
    hide Inv, SumReserved;
    Reserves(reserved, strict);
  }

  lemma DeclinedIs(db: Db, reserved: Db, next: Db, request: OnrampRequest)
    requires CreatedAs(db, reserved, request, Created, None) && OnlyOrder(reserved, next, request.id)
    requires GaveBack(reserved, next, request.id) && next.idempotency == reserved.idempotency
    requires Went(reserved, next, request.id, "checkout.failed", PaymentFailed, Some("checkout_failed"))
    ensures CreatedAs(db, next, request, PaymentFailed, Some("checkout_failed"))
  {
    hide SumReserved;
  }

  lemma UnknownIs(db: Db, reserved: Db, next: Db, request: OnrampRequest)
    requires CreatedAs(db, reserved, request, Created, None)
    requires next == reserved.(orders := reserved.orders[request.id := reserved.orders[request.id].(failure := Some("checkout_unknown"))])
    ensures CreatedAs(db, next, request, Created, Some("checkout_unknown"))
  {
    hide SumReserved;
  }

  lemma MadeIs(db: Db, reserved: Db, next: Db, request: OnrampRequest)
    requires CreatedAs(db, reserved, request, Created, None) && OnlyOrder(reserved, next, request.id)
    requires next.reservations == reserved.reservations && next.treasury == reserved.treasury && next.idempotency == reserved.idempotency
    requires Went(reserved, next, request.id, "checkout.created", PaymentPending, None)
    ensures CreatedAs(db, next, request, PaymentPending, None)
  {
    hide SumReserved;
  }

  // A repeat of a request, at any later time and whatever it would have
  // reserved, gets the order of the first and writes nothing; the same key
  // with a different request conflicts and writes nothing.
  lemma RepeatsWriteNothing(db: Db, request: OnrampRequest, later: Db, again: OnrampRequest, observed: int, buffer: int, gateway: Gateway, strict: bool)
    requires request.key in db.idempotency && db.idempotency[request.key] == Binding(request.requestHash, request.id)
    requires Extends(db, later, strict) && again.key == request.key
    ensures var (next, outcome) := CreateOrder(later, again, observed, buffer, gateway);
            && next == later
            && outcome == if again.requestHash != request.requestHash then Conflict
                          else if request.id in later.orders && later.orders[request.id].failure == Some("checkout_unknown")
                          then CheckoutUnknown(request.id) else Replayed(request.id)
  {
    hide ViewExtends, ViewOf, ReserveAndCreate, CheckedOut;
  }

  // With the fingerprint of its fields as request hash, that is: equal fields
  // replay, any differing field conflicts.
  lemma DifferingFieldsConflict(digest: string -> string, db: Db, request: OnrampRequest, values: seq<string>,
                                later: Db, again: OnrampRequest, values2: seq<string>, observed: int, buffer: int, gateway: Gateway, strict: bool)
    requires CollisionFree(digest)
    requires request.requestHash == OrderRequestHash(digest, "onramp.create", values)
    requires again.requestHash == OrderRequestHash(digest, "onramp.create", values2)
    requires request.key in db.idempotency && db.idempotency[request.key] == Binding(request.requestHash, request.id)
    requires Extends(db, later, strict) && again.key == request.key
    ensures var (next, outcome) := CreateOrder(later, again, observed, buffer, gateway);
            next == later && outcome == if values2 == values then ReplayOutcome(later, request.id) else Conflict
  {
    hide Extends, CreateOrder, Encode, CollisionFree, OrderRequestHash;
    SameHashSameRequest(digest, "onramp.create", values, "onramp.create", values2);
    RepeatsWriteNothing(db, request, later, again, observed, buffer, gateway, strict);
  }

  // ---------------------------------------------------------------- sales

  // The same for a sell order, which reserves nothing and has no checkout.
  function CreateSale(db: Db, request: OfframpRequest): (Db, Outcome) {
    match FindReplay(db, request.key, request.requestHash)
    case Found(id) => (db, Replayed(id))
    case Conflicting => (db, Conflict)
    case Missing =>
      match CreateOfframp(db, request)
      case RolledBack(error) => (db, NotMade(error))
      case Committed(next) => (next, Made(request.id))
  }

  class OfframpUsecase {
    const repository: Database
    const digest: Digest

    constructor (repository: Database, digest: Digest)
      ensures this.repository == repository && this.digest == digest
    {
      this.repository, this.digest := repository, digest;
    }

    // The memo of the new order is made from its id.
    method Create(command: OfframpRequest) returns (outcome: Outcome)
      modifies repository
      ensures (repository.Tables(), outcome)
           == CreateSale(old(repository.Tables()), command.(memo := DepositMemo(command.id, digest)))
    {
      hide SlotFree, EventsOf, DepositMemo;
      var request := command.(memo := DepositMemo(command.id, digest));
      match FindReplay(repository.Tables(), request.key, request.requestHash)
      case Found(id) => return Replayed(id);
      case Conflicting => return Conflict;
      case Missing =>
        var failure := repository.CreateOfframp(request);
        if failure.Some? {
          // Another request with the key may have won since the first lookup.
          match FindReplay(repository.Tables(), request.key, request.requestHash)
          case Found(id) => return Replayed(id);
          case Conflicting => return Conflict;
          case Missing => return NotMade(failure.value);
        }
        return Made(request.id);
    }
  }

  lemma SalesRepeatWithoutEffect(db: Db, request: OfframpRequest, later: Db, again: OfframpRequest, strict: bool)
    requires CreateSale(db, request).1 == Made(request.id)
    requires Extends(CreateSale(db, request).0, later, strict) && again.key == request.key
    ensures var (next, outcome) := CreateSale(later, again);
            && next == later
            && outcome == if again.requestHash == request.requestHash then Replayed(request.id) else Conflict
  {
    hide ViewExtends, ViewOf, SlotFree, EventsOf;
  }

  // A sale stores the memo the deposit scan will look for, so the scan picks a
  // payment for it exactly when some recent one passes the repository's check,
  // and picks one that does.
  lemma SalesAreFoundByTheirMemo(db: Db, command: OfframpRequest, digest: Digest, recent: seq<Payment>)
    requires CreateSale(db, command.(memo := DepositMemo(command.id, digest))).1 == Made(command.id)
    ensures var next := CreateSale(db, command.(memo := DepositMemo(command.id, digest))).0;
            && command.id in next.orders
            && var row := next.orders[command.id];
               var order := Candidate(command.id, DepositMemo(command.id, digest), row.stroops, row.assetCode, row.assetIssuer);
               var verdict := Judge(order, UsableOf(recent, command.depositAccount), digest);
               && ReadFrom(order, row, command.depositAccount)
               && (command.stroops > 0 ==>
                     (verdict.Exact? <==> exists payment :: payment in recent && ValidDeposit(row, payment)))
               && (verdict.Exact? ==> verdict.payment in recent && ValidDeposit(row, verdict.payment))
  {
    hide SlotFree, EventsOf, DepositMemo, Judge, UsableOf, ValidDeposit;
    MemoFits(command.id, digest);
    var next := CreateSale(db, command.(memo := DepositMemo(command.id, digest))).0;
    var row := next.orders[command.id];
    var order := Candidate(command.id, DepositMemo(command.id, digest), row.stroops, row.assetCode, row.assetIssuer);
    VerdictIsRight(order, UsableOf(recent, command.depositAccount), digest);
    UsableIsRight(recent, command.depositAccount);
    if Judge(order, UsableOf(recent, command.depositAccount), digest).Exact? {
      ChosenIsValid(order, row, recent, command.depositAccount, digest);
    }
    if payment :| command.stroops > 0 && payment in recent && ValidDeposit(row, payment) {
      NoDepositIsOverlooked(order, row, recent, command.depositAccount, digest, payment);
    }
  }

  // ---------------------------------------------------------------- callbacks

  datatype PaymentState = PaymentState(provider: string, reference: string, status: string, currency: string, amount: int, channel: string)

  datatype CallbackOutcome = Accepted | AlreadyProcessed | Mismatched | Unmatched | Unavailable | Refused(error: Error)

  predicate KnownAs(db: Db, provider: string, id: string) {
    provider in db.checkouts && (provider == id || db.checkouts[provider].requestId == Some(id))
  }

  // What the gateway says the payment is, read back from it, is what the
  // checkout asked for.
  predicate Pays(checkout: Checkout, id: string, eventType: string, actual: PaymentState) {
    && ((eventType == "payment.capture" && actual.status == "SUCCEEDED")
        || (eventType == "payment_session.completed" && actual.status == "COMPLETED"))
    && actual.provider == id && actual.reference == checkout.order
    && actual.currency == "IDR" && actual.amount == checkout.amount
    && (checkout.channel != "" ==> actual.channel == checkout.channel)
  }

  // Two tables with the same money: they differ in callback receipts at most.
  predicate SameMoney(a: Db, b: Db) {
    a.(callbacks := b.callbacks) == b
  }

  lemma PaymentIgnoresCallbacks(a: Db, b: Db, id: OrderId, eventId: string, now: Time)
    requires SameMoney(a, b)
    ensures var ra, rb := ConfirmPayment(a, id, eventId, now), ConfirmPayment(b, id, eventId, now);
            && ra.Committed? == rb.Committed?
            && (ra.Committed? ==> SameMoney(ra.db, rb.db))
            && (ra.RolledBack? ==> ra == rb)
  {
    hide Move;
    SameSlots(a, b, id);
    if id in a.orders {
      var row := a.orders[id];
      MoveFrame(a, b, id, "payment.confirmed", PaymentConfirmed, row.failure);
      var pa, pb := Move(a, id, "payment.confirmed", PaymentConfirmed, row.failure), Move(b, id, "payment.confirmed", PaymentConfirmed, row.failure);
      MoveFrame(pa, pb, id, "stellar.transfer_requested", StellarProcessing, row.failure);
    }
  }

  class OnrampCallbackUsecase {
    const repository: Database

    constructor (repository: Database)
      ensures this.repository == repository
    {
      this.repository := repository;
    }

    // One delivery of a provider event. `readable` says that the lookup of the
    // payment did not fail; `reconciled` is the payment as the gateway reports
    // it, or None when it cannot. A lookup that fails completes the receipt as
    // one that finds nothing does.
    method Process(eventId: string, eventType: string, checkoutId: string, payloadHash: string,
                   readable: bool, reconciled: Option<PaymentState>, now: Time)
      returns (outcome: CallbackOutcome, matched: Option<string>)
      modifies repository
      ensures var before, after := old(repository.Tables()), repository.Tables();
              if eventId in before.callbacks && before.callbacks[eventId].payloadHash != payloadHash
              then outcome == Mismatched && after == before
              else if eventId in before.callbacks && before.callbacks[eventId].processed
              then outcome == AlreadyProcessed && after == before
              else
                && outcome != AlreadyProcessed
                && eventId in after.callbacks && after.callbacks[eventId].payloadHash == payloadHash
                && (after.callbacks[eventId].processed <==> outcome in {Accepted, Mismatched, Unmatched})
                && (outcome != Accepted ==> SameMoney(after, before))
                && (outcome == Unavailable <==> readable && reconciled.None? && exists provider :: KnownAs(before, provider, checkoutId))
                && (outcome == Unmatched <==> !readable || forall provider :: !KnownAs(before, provider, checkoutId))
                && (outcome == Accepted || outcome.Refused? ==>
                      && matched.Some? && KnownAs(before, matched.value, checkoutId) && reconciled.Some?
                      && Pays(before.checkouts[matched.value], checkoutId, eventType, reconciled.value)
                      && var result := ConfirmPayment(before, before.checkouts[matched.value].order, eventId, now);
                         && (outcome == Accepted ==> result.Committed? && SameMoney(after, result.db))
                         && (outcome.Refused? ==> result == RolledBack(outcome.error)))
                && (outcome == Mismatched ==>
                      && matched.Some? && KnownAs(before, matched.value, checkoutId) && reconciled.Some?
                      && !Pays(before.checkouts[matched.value], checkoutId, eventType, reconciled.value))
    {
      hide ConfirmPayment;
      ghost var before := repository.Tables();
      var processed := repository.RecordReceipt(eventId, payloadHash);
      if processed.None? {
        return Mismatched, None;
      }
      if processed.value {
        return AlreadyProcessed, None;
      }
      matched := repository.ExpectedPayment(checkoutId);
      if !readable || matched.None? {
        assert forall provider :: KnownAs(before, provider, checkoutId) ==> repository.Expected(provider, checkoutId);
        repository.CompleteCallback(eventId, "unmatched");
        return Unmatched, None;
      }
      assert KnownAs(before, matched.value, checkoutId);
      if reconciled.None? {
        return Unavailable, matched;
      }
      var checkout := repository.checkouts[matched.value];
      if !Pays(checkout, checkoutId, eventType, reconciled.value) {
        repository.CompleteCallback(eventId, "mismatched");
        return Mismatched, matched;
      }
      PaymentIgnoresCallbacks(before, repository.Tables(), checkout.order, eventId, now);
      PaymentKeepsReceipt(repository.Tables(), checkout.order, eventId, now);
      var failure := repository.ConfirmPayment(checkout.order, eventId, now);
      if failure.Some? {
        return Refused(failure.value), matched;
      }
      repository.CompleteCallback(eventId, "processed");
      return Accepted, matched;
    }
  }

  lemma PaymentKeepsReceipt(db: Db, id: OrderId, eventId: string, now: Time)
    requires eventId in db.callbacks
    ensures var result := ConfirmPayment(db, id, eventId, now);
            result.Committed? ==> eventId in result.db.callbacks && result.db.callbacks[eventId].payloadHash == db.callbacks[eventId].payloadHash
  {
    hide SlotFree, Move;
    if id in db.orders {
      var row := db.orders[id];
      MoveFrame(db, db, id, "payment.confirmed", PaymentConfirmed, row.failure);
    }
  }

  // A callback is accepted exactly on evidence of a successful payment, in
  // rupiah, of the order's whole fiat amount, made under the checkout's own
  // reference and channel, for an order that awaits it or has it already; the
  // order is then being settled or is.
  lemma AcceptedPaymentIsInFull(db: Db, provider: string, id: string, eventType: string, actual: PaymentState, eventId: string, now: Time, strict: bool)
    requires Inv(db, strict) && KnownAs(db, provider, id)
    ensures var checkout := db.checkouts[provider];
            && checkout.order in db.orders
            && var row, result := db.orders[checkout.order], ConfirmPayment(db, checkout.order, eventId, now);
               && (Pays(checkout, id, eventType, actual) && result.Committed? <==>
                     && (eventType, actual.status) in {("payment.capture", "SUCCEEDED"), ("payment_session.completed", "COMPLETED")}
                     && actual.provider == id && actual.reference == checkout.order
                     && actual.currency == "IDR" && actual.amount == row.fiat
                     && checkout.channel in {"", actual.channel}
                     && row.status in {PaymentPending, StellarProcessing, Completed})
               && (result.Committed? ==> StatusOf(result.db, checkout.order) in {Some(StellarProcessing), Some(Completed)})
  {
    hide Inv, ConfirmPayment, SlotFree, EventsOf, Queued, OnlyOrder;
    CheckoutOf(db, provider, strict);
    PaymentOutcome(db, db.checkouts[provider].order, eventId, now, strict);
  }

  // A checkout asks for the fiat amount of its order.
  lemma CheckoutOf(db: Db, provider: string, strict: bool)
    requires Inv(db, strict) && provider in db.checkouts
    ensures db.checkouts[provider].order in db.orders
    ensures db.checkouts[provider].amount == db.orders[db.checkouts[provider].order].fiat
  {
    hide ViewOk, ViewOf, TreasuryOk, HashesUnique, BindingsOk, OutboxOk;
  }
}
