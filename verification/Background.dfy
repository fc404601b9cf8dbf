// Everything that happens to the money tables outside the two submission
// workers: API calls, callbacks, scans, sweeps, payouts.
module Background {
  import opened Prelude
  import opened Orders
  import opened Ledger
  import opened Invariant
  import opened Transactions

  datatype Call =
    | OnrampReserve(onramp: OnrampRequest, observed: int, buffer: int)
    | CheckoutAttach(id: OrderId, provider: string, requestId: Option<string>, channel: string)
    | CheckoutFail(id: OrderId)
    | CheckoutUnknown(id: OrderId)
    | PaymentConfirm(id: OrderId, eventId: string, now: Time)
    | ReservationSweep(id: OrderId)
    | OfframpCreate(offramp: OfframpRequest)
    | DepositSweep(id: OrderId)
    | DepositReceived(id: OrderId, payment: Payment, now: Time)
    | DepositInvalid(id: OrderId)
    | RetirementRequeue(now: Time, maxAttempts: int)
    | PayoutComplete(id: OrderId, index: nat)
    | CallbackNote(callbacks: map<string, Callback>)

  function Perform(db: Db, call: Call): Result {
    match call
    case OnrampReserve(request, observed, buffer) => ReserveAndCreate(db, request, observed, buffer)
    case CheckoutAttach(id, provider, requestId, channel) => AttachCheckout(db, id, provider, requestId, channel)
    case CheckoutFail(id) => FailCheckout(db, id)
    case CheckoutUnknown(id) => MarkCheckoutUnknown(db, id)
    case PaymentConfirm(id, eventId, now) => ConfirmPayment(db, id, eventId, now)
    case ReservationSweep(id) => ReleaseExpired(db, id)
    case OfframpCreate(request) => CreateOfframp(db, request)
    case DepositSweep(id) => ExpireDeposit(db, id)
    case DepositReceived(id, payment, now) => RecordAssetReceived(db, id, payment, now)
    case DepositInvalid(id) => RecordAssetInvalid(db, id)
    case RetirementRequeue(now, maxAttempts) => RequeueRetirements(db, now, maxAttempts)
    case PayoutComplete(id, index) => CompletePayout(db, id, index)
    case CallbackNote(callbacks) => Committed(db.(callbacks := callbacks))
  }

  // Each operation writes bindings under its own name, and a payout job is a
  // message of the outbox.
  predicate WellFormed(db: Db, call: Call) {
    match call
    case OnrampReserve(request, _, _) => request.key.operation == Onramp
    case OfframpCreate(request) => request.key.operation == Offramp
    case PayoutComplete(id, index) => PayoutJob(db, id, index)
    case _ => true
  }

  lemma CallbackNoteKept(db: Db, callbacks: map<string, Callback>, strict: bool)
    requires Inv(db, strict)
    ensures Kept(db, db.(callbacks := callbacks), strict)
  {
    hide ViewOk, ViewExtends, Extends, TreasuryOk, Inv, BindingsOk, CheckoutsOk, OutboxOk, HashTaken, Open;
    var next := db.(callbacks := callbacks);
    At(db, "", strict);
    SameView(ViewOf(db, ""), strict);
    TreasuryKept(db, next, strict);
    BindingsKept(db, next, "", strict);
    Close(db, next, "", Key("", Transfer), strict);
  }

  lemma PerformKept(db: Db, call: Call, strict: bool)
    requires Inv(db, strict) && WellFormed(db, call) && Perform(db, call).Committed?
    ensures Kept(db, Perform(db, call).db, strict)
  {
    hide Inv, Extends, Move, Release, StartSettlement, StartRetirement, RequeueAll;
    match call
    case OnrampReserve(request, observed, buffer) => ReserveAndCreateKept(db, request, observed, buffer, strict);
    case CheckoutAttach(id, provider, requestId, channel) => AttachCheckoutKept(db, id, provider, requestId, channel, strict);
    case CheckoutFail(id) => FailCheckoutKept(db, id, strict);
    case CheckoutUnknown(id) => MarkCheckoutUnknownKept(db, id, strict);
    case PaymentConfirm(id, eventId, now) => ConfirmPaymentKept(db, id, eventId, now, strict);
    case ReservationSweep(id) => ReleaseExpiredKept(db, id, strict);
    case OfframpCreate(request) => CreateOfframpKept(db, request, strict);
    case DepositSweep(id) => DepositClosedKept(db, id, "order.expired", Expired, db.orders[id].failure, strict);
    case DepositReceived(id, payment, now) => RecordAssetReceivedKept(db, id, payment, now, strict);
    case DepositInvalid(id) => DepositClosedKept(db, id, "asset.invalid", AssetInvalid, Some("deposit_mismatch"), strict);
    case RetirementRequeue(now, maxAttempts) => OutboxRewriteKept(db, RequeueAll(db, db.outbox, now, maxAttempts), strict);
    case PayoutComplete(id, index) => CompletePayoutKept(db, id, index, strict);
    case CallbackNote(callbacks) => CallbackNoteKept(db, callbacks, strict);
  }

  // An order that was handed to settlement.
  predicate HandedOver(status: Status) {
    status in {StellarProcessing, Completed, StellarFailed}
  }

  // What the submission workers need of everybody else: Stellar transactions
  // already there and orders already handed over are left alone, and new
  // transactions start without a hash.
  ghost predicate LeavesWorkAlone(db: Db, next: Db) {
    && (forall key :: key in db.intents ==> key in next.intents && next.intents[key] == db.intents[key])
    && (forall key :: key in next.intents && key !in db.intents && key.purpose != Deposit ==>
          && next.intents[key].status == Pending && next.intents[key].hash.None?
          && (key.purpose == Transfer ==> BeingSettled(next, key)))
    && (forall id :: id in db.orders && HandedOver(db.orders[id].status) ==> id in next.orders && next.orders[id] == db.orders[id])
  }

  lemma SettlementLeavesWorkAlone(db: Db, id: OrderId, eventId: string, now: Time)
    requires id in db.orders && db.orders[id].status == PaymentPending && Key(id, Transfer) !in db.intents
    ensures LeavesWorkAlone(db, StartSettlement(db, id, eventId, now))
  {
    hide EventsOf, MatchCallback;
  }

  lemma PaymentLeavesWorkAlone(db: Db, id: OrderId, eventId: string, now: Time)
    requires ConfirmPayment(db, id, eventId, now).Committed?
    ensures LeavesWorkAlone(db, ConfirmPayment(db, id, eventId, now).db)
  {
    hide SlotFree, StartSettlement;
    if db.orders[id].status == PaymentPending {
      SettlementLeavesWorkAlone(db, id, eventId, now);
    }
  }

  lemma RetirementLeavesWorkAlone(db: Db, id: OrderId, payment: Payment, now: Time)
    requires id in db.orders && db.orders[id].status == AssetPending
    requires Key(id, Deposit) !in db.intents && Key(id, Retirement) !in db.intents
    ensures LeavesWorkAlone(db, StartRetirement(db, id, payment, now))
  {
    hide EventsOf;
  }

  lemma DepositLeavesWorkAlone(db: Db, id: OrderId, payment: Payment, now: Time)
    requires RecordAssetReceived(db, id, payment, now).Committed?
    ensures LeavesWorkAlone(db, RecordAssetReceived(db, id, payment, now).db)
  {
    hide SlotFree, StartRetirement, HashTaken, DepositIntentTaken;
    if db.orders[id].status == AssetPending {
      RetirementLeavesWorkAlone(db, id, payment, now);
    }
  }

  // Every other call touches no Stellar transaction and at most one order,
  // which was not handed over.
  ghost predicate TouchesIdleOrder(db: Db, next: Db, id: OrderId) {
    && next.intents == db.intents
    && (forall other :: other in db.orders && other != id ==> other in next.orders && next.orders[other] == db.orders[other])
    && (id in db.orders && HandedOver(db.orders[id].status) ==> id in next.orders && next.orders[id] == db.orders[id])
  }

  function Subject(call: Call): OrderId {
    match call
    case OnrampReserve(request, _, _) => request.id
    case OfframpCreate(request) => request.id
    case RetirementRequeue(_, _) => ""
    case CallbackNote(_) => ""
    case _ => call.id
  }

  lemma PayoutTouchesIdleOrder(db: Db, id: OrderId, index: nat)
    requires id in db.orders && db.orders[id].status in {WithdrawalProcessing, Completed}
    ensures TouchesIdleOrder(db, PayOut(db, id, index), id)
  {
    hide FinishMessage, EventsOf;
  }

  lemma ReserveTouchesIdleOrder(db: Db, request: OnrampRequest, observed: int, buffer: int)
    requires ReserveAndCreate(db, request, observed, buffer).Committed?
    ensures TouchesIdleOrder(db, ReserveAndCreate(db, request, observed, buffer).db, request.id)
  {
    hide SlotFree, EventsOf, LockTreasury;
  }

  lemma MoveTouchesIdleOrder(db: Db, id: OrderId, kind: string, next: Status, failure: Option<string>)
    requires id in db.orders && !HandedOver(db.orders[id].status)
    ensures TouchesIdleOrder(db, Move(db, id, kind, next, failure), id)
  {
    hide EventsOf;
  }

  // Whether an order is touched is a matter of orders and intents.
  lemma SameTouch(db: Db, a: Db, b: Db, id: OrderId)
    requires TouchesIdleOrder(db, a, id) && a.orders == b.orders && a.intents == b.intents
    ensures TouchesIdleOrder(db, b, id)
  {
  }

  lemma CheckoutTouchesIdleOrder(db: Db, call: Call)
    requires Perform(db, call).Committed?
    requires call.CheckoutAttach? || call.CheckoutFail? || call.ReservationSweep?
    ensures TouchesIdleOrder(db, Perform(db, call).db, call.id)
  {
    hide SlotFree, EventsOf, GiveBack, CheckoutRequestTaken, Move, TouchesIdleOrder;
    var id := call.id;
    var failure := db.orders[id].failure;
    if call.CheckoutAttach? {
      MoveTouchesIdleOrder(db, id, "checkout.created", PaymentPending, failure);
      SameTouch(db, Move(db, id, "checkout.created", PaymentPending, failure), Perform(db, call).db, id);
    } else if call.CheckoutFail? {
      MoveTouchesIdleOrder(db, id, "checkout.failed", PaymentFailed, Some("checkout_failed"));
      SameTouch(db, Move(db, id, "checkout.failed", PaymentFailed, Some("checkout_failed")), Perform(db, call).db, id);
    } else if db.orders[id].status == PaymentPending {
      MoveTouchesIdleOrder(db, id, "order.expired", Expired, failure);
      SameTouch(db, Move(db, id, "order.expired", Expired, failure), Perform(db, call).db, id);
    } else {
      NothingTouched(db, id);
    }
  }

  lemma NothingTouched(db: Db, id: OrderId)
    ensures TouchesIdleOrder(db, db, id)
  {
  }

  lemma UnknownTouchesIdleOrder(db: Db, id: OrderId)
    ensures TouchesIdleOrder(db, MarkCheckoutUnknown(db, id).db, id)
  {
  }

  lemma PerformTouchesIdleOrder(db: Db, call: Call)
    requires Perform(db, call).Committed? && !call.PaymentConfirm? && !call.DepositReceived?
    ensures TouchesIdleOrder(db, Perform(db, call).db, Subject(call))
  {
    hide ReserveAndCreate, AttachCheckout, FailCheckout, MarkCheckoutUnknown, ReleaseExpired, PayOut,
      RequeueAll, SlotFree, EventsOf;
    if call.PayoutComplete? {
      PayoutTouchesIdleOrder(db, call.id, call.index);
    } else if call.OnrampReserve? {
      ReserveTouchesIdleOrder(db, call.onramp, call.observed, call.buffer);
    } else if call.CheckoutUnknown? {
      UnknownTouchesIdleOrder(db, call.id);
    } else if call.CheckoutAttach? || call.CheckoutFail? || call.ReservationSweep? {
      CheckoutTouchesIdleOrder(db, call);
    }
  }

  lemma PerformLeavesWorkAlone(db: Db, call: Call)
    requires Perform(db, call).Committed?
    ensures LeavesWorkAlone(db, Perform(db, call).db)
  {
    hide ConfirmPayment, RecordAssetReceived, ReserveAndCreate, AttachCheckout, FailCheckout, MarkCheckoutUnknown,
      ReleaseExpired, CreateOfframp, ExpireDeposit, RecordAssetInvalid, RequeueRetirements, CompletePayout;
    if call.PaymentConfirm? {
      PaymentLeavesWorkAlone(db, call.id, call.eventId, call.now);
    } else if call.DepositReceived? {
      DepositLeavesWorkAlone(db, call.id, call.payment, call.now);
    } else {
      PerformTouchesIdleOrder(db, call);
    }
  }
}
