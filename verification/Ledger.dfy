// The money tables and the repository transactions over them, as functions.
//
// A transaction either commits a new value of the tables or rolls back with
// an error and leaves them alone. Rows that the database keeps unique per
// order (reservations, payouts, one Stellar transaction per purpose) are maps
// on the order; the outbox is the table itself, and a message's position in
// it stands for its id.
module Ledger {
  import opened Prelude
  import opened Orders

  type OrderId = string
  type Hash = string
  type Time = int

  datatype Direction = Onramp | Offramp

  datatype OrderRow = OrderRow(
    direction: Direction,
    status: Status,
    version: nat,
    fiat: int,
    stroops: int,
    assetCode: string,
    assetIssuer: string,
    source: Option<string>,
    memo: Option<string>,
    expiresAt: Option<Time>,
    failure: Option<string>)

  datatype ReservationStatus = Reserved | Released | Consumed
  datatype Reservation = Reservation(amount: int, status: ReservationStatus, expiresAt: Time)
  datatype Treasury = Treasury(observed: int, reserved: int, buffer: int)

  datatype Purpose = Transfer | Deposit | Retirement
  datatype Key = Key(order: OrderId, purpose: Purpose)
  datatype IntentStatus = Pending | Submitted | UnknownOutcome | Confirmed | Failed | Simulated
  datatype Intent = Intent(amount: int, status: IntentStatus, hash: Option<Hash>, ledgerAt: Option<Time>, attempts: nat)

  datatype Topic = SettleOnramp | RetireOfframp | SimulatePayout
  datatype Message = Message(
    topic: Topic,
    order: OrderId,
    processed: bool,
    createdAt: Time,
    availableAt: Time,
    attempts: nat,
    lease: Option<Lease>)
  datatype Lease = Lease(owner: string, until: Time)

  datatype Payout = Payout(amount: int, reference: string)

  datatype Owner = ApiClient(client: string) | RetailUser(user: string)
  datatype IdemKey = IdemKey(owner: Owner, operation: Direction, keyHash: string)
  datatype Binding = Binding(requestHash: string, order: OrderId)

  datatype Checkout = Checkout(order: OrderId, amount: int, requestId: Option<string>, channel: string)
  datatype Callback = Callback(payloadHash: string, order: Option<OrderId>, result: string, processed: bool)

  datatype Db = Db(
    orders: map<OrderId, OrderRow>,
    events: map<OrderId, seq<Event>>,
    reservations: map<OrderId, Reservation>,
    treasury: Option<Treasury>,
    intents: map<Key, Intent>,
    outbox: seq<Message>,
    payouts: map<OrderId, Payout>,
    idempotency: map<IdemKey, Binding>,
    checkouts: map<string, Checkout>,
    callbacks: map<string, Callback>)

  const EMPTY := Db(map[], map[], map[], None, map[], [], map[], map[], map[], map[])

  datatype Error =
    | NotFound
    | InvalidState
    | UniqueViolation
    | InsufficientLiquidity
    | InvalidDeposit
    | HashMismatch
    | HashAlreadySaved
    | AfterSubmission
    | IdempotencyConflict
    | PaymentMismatch
    | NoJob

  datatype Result = Committed(db: Db) | RolledBack(error: Error)

  // internal/repository/onramp_repository.go:24
  const KXLM_ISSUE_FEE_RESERVE := 10_000
  const KXLM := "KXLM"

  // ---------------------------------------------------------------- outbox

  predicate IsOpen(message: Message, topic: Topic, order: OrderId) {
    message.topic == topic && message.order == order && !message.processed
  }

  // How many unprocessed messages of a topic an order has.
  function Open(outbox: seq<Message>, topic: Topic, order: OrderId): nat {
    if outbox == [] then 0
    else
      Open(outbox[..|outbox| - 1], topic, order)
      + (if IsOpen(outbox[|outbox| - 1], topic, order) then 1 else 0)
  }

  // Marks every unprocessed message of the topic and order processed.
  function Finish(outbox: seq<Message>, topic: Topic, order: OrderId): (finished: seq<Message>)
    ensures |finished| == |outbox|
    ensures forall i :: 0 <= i < |outbox| ==>
              finished[i] == if IsOpen(outbox[i], topic, order) then Processed(outbox[i]) else outbox[i]
  {
    if outbox == [] then []
    else
      var last := outbox[|outbox| - 1];
      Finish(outbox[..|outbox| - 1], topic, order)
      + [if IsOpen(last, topic, order) then Processed(last) else last]
  }

  function Processed(message: Message): Message {
    message.(processed := true, lease := None)
  }

  function NewMessage(topic: Topic, order: OrderId, now: Time): Message {
    Message(topic, order, false, now, now, 0, None)
  }

  // ---------------------------------------------------------------- helpers

  function EventsOf(db: Db, id: OrderId): seq<Event> {
    if id in db.events then db.events[id] else []
  }

  // The unique key (order, version) of order_events is still free.
  predicate SlotFree(db: Db, id: OrderId, version: nat) {
    forall i :: 0 <= i < |EventsOf(db, id)| ==> EventsOf(db, id)[i].version != version
  }

  // Moves an order one transition on and appends the event that says so.
  function Move(db: Db, id: OrderId, kind: string, next: Status, failure: Option<string>): Db
    requires id in db.orders
  {
    var row := db.orders[id];
    db.(orders := db.orders[id := row.(status := next, version := row.version + 1, failure := failure)],
    events := db.events[id := EventsOf(db, id) + [Event(row.version + 1, kind, Some(row.status), next)]])
  }

  function GiveBack(treasury: Option<Treasury>, amount: int): Option<Treasury> {
    match treasury
    case Some(t) => Some(t.(reserved := t.reserved - amount))
    case None => None
  }

  // The unique key on transaction_hash would be broken by giving it to `key`.
  predicate HashTaken(db: Db, key: Key, hash: Hash) {
    exists other :: other in db.intents && other != key && db.intents[other].hash == Some(hash)
  }

  function HashPrefix(hash: Hash): Hash {
    if |hash| <= 24 then hash else hash[..24]
  }

  // A deposit's intent id holds the first 24 characters of its hash, and
  // intent ids are unique.
  predicate DepositIntentTaken(db: Db, hash: Hash) {
    exists other :: other in db.intents && other.purpose == Deposit && db.intents[other].hash.Some?
                    && HashPrefix(db.intents[other].hash.value) == HashPrefix(hash)
  }

  // ---------------------------------------------------------------- on-ramp

  datatype OnrampRequest = OnrampRequest(
    id: OrderId,
    key: IdemKey,
    requestHash: string,
    fiat: int,
    stroops: int,
    treasuryAccount: string,
    memo: Option<string>,
    quoteExpiresAt: Time)

  function LockTreasury(treasury: Option<Treasury>, observed: int, buffer: int): Treasury {
    match treasury
    case Some(t) => t.(observed := observed)
    case None => Treasury(observed, 0, buffer)
  }

  function ReserveAndCreate(db: Db, request: OnrampRequest, observed: int, buffer: int): Result {
    var id := request.id;
    var t := LockTreasury(db.treasury, observed, buffer);
    if t.observed - t.reserved - t.buffer < KXLM_ISSUE_FEE_RESERVE then RolledBack(InsufficientLiquidity)
    else if id in db.orders || id in db.reservations || !SlotFree(db, id, 1) then RolledBack(UniqueViolation)
    else if request.key in db.idempotency then RolledBack(UniqueViolation)
    else
      Committed(db.(
                treasury := Some(t.(reserved := t.reserved + KXLM_ISSUE_FEE_RESERVE)),
                orders := db.orders[id := OrderRow(Onramp, Created, 1, request.fiat, request.stroops, KXLM,
                request.treasuryAccount, Some(request.treasuryAccount), request.memo, None, None)],
                reservations := db.reservations[id := Reservation(KXLM_ISSUE_FEE_RESERVE, Reserved, request.quoteExpiresAt)],
                events := db.events[id := EventsOf(db, id) + [Event(1, "order.created", None, Created)]],
                idempotency := db.idempotency[request.key := Binding(request.requestHash, id)]))
  }

  function AttachCheckout(db: Db, id: OrderId, providerId: string, requestId: Option<string>, channel: string): Result {
    if id !in db.orders then RolledBack(NotFound)
    else if db.orders[id].status != Created then RolledBack(InvalidState)
    else if providerId in db.checkouts || CheckoutRequestTaken(db, requestId)
            || !SlotFree(db, id, db.orders[id].version + 1) then RolledBack(UniqueViolation)
    else
      Committed(Move(db, id, "checkout.created", PaymentPending, db.orders[id].failure).(
                checkouts := db.checkouts[providerId := Checkout(id, db.orders[id].fiat, requestId, channel)]))
  }

  predicate CheckoutRequestTaken(db: Db, requestId: Option<string>) {
    requestId.Some? && exists other :: other in db.checkouts && db.checkouts[other].requestId == requestId
  }

  function FailCheckout(db: Db, id: OrderId): Result {
    if id !in db.orders then RolledBack(NotFound)
    else if db.orders[id].status != Created then RolledBack(InvalidState)
    else if id !in db.reservations || db.reservations[id].status != Reserved then RolledBack(NotFound)
    else if !SlotFree(db, id, db.orders[id].version + 1) then RolledBack(UniqueViolation)
    else
      Committed(Release(Move(db, id, "checkout.failed", PaymentFailed, Some("checkout_failed")), id))
  }

  // Releases an order's reservation and returns its amount to the treasury.
  function Release(db: Db, id: OrderId): Db
    requires id in db.reservations
  {
    db.(reservations := db.reservations[id := db.reservations[id].(status := Released)],
    treasury := GiveBack(db.treasury, db.reservations[id].amount))
  }

  function MarkCheckoutUnknown(db: Db, id: OrderId): Result {
    if id in db.orders && db.orders[id].status == Created
    then Committed(db.(orders := db.orders[id := db.orders[id].(failure := Some("checkout_unknown"))]))
    else Committed(db)
  }

  function ConfirmPayment(db: Db, id: OrderId, eventId: string, now: Time): Result {
    if id !in db.orders then RolledBack(NotFound)
    else
      var row := db.orders[id];
      if row.status == StellarProcessing || row.status == Completed then Committed(db)
      else if row.status != PaymentPending then RolledBack(InvalidState)
      else if !SlotFree(db, id, row.version + 1) || !SlotFree(db, id, row.version + 2)
              || Key(id, Transfer) in db.intents then RolledBack(UniqueViolation)
      else Committed(StartSettlement(db, id, eventId, now))
  }

  // The payment is confirmed, the transfer requested, and its intent and job
  // are written with them.
  function StartSettlement(db: Db, id: OrderId, eventId: string, now: Time): Db
    requires id in db.orders
  {
    var row := db.orders[id];
    var paid := Move(db, id, "payment.confirmed", PaymentConfirmed, row.failure);
    var moved := Move(paid, id, "stellar.transfer_requested", StellarProcessing, row.failure);
    moved.(
    intents := db.intents[Key(id, Transfer) := Intent(row.stroops, Pending, None, None, 0)],
    outbox := db.outbox + [NewMessage(SettleOnramp, id, now)],
    callbacks := MatchCallback(db.callbacks, eventId, id))
  }

  function MatchCallback(callbacks: map<string, Callback>, eventId: string, id: OrderId): map<string, Callback> {
    if eventId in callbacks
    then callbacks[eventId := callbacks[eventId].(order := Some(id), result := "matched")]
    else callbacks
  }

  // One row of ReleaseExpiredReservations: an expired reservation is released
  // only while its order still awaits payment.
  function ReleaseExpired(db: Db, id: OrderId): Result {
    if id !in db.orders || id !in db.reservations then RolledBack(NotFound)
    else if db.orders[id].status != PaymentPending then Committed(db)
    else if !SlotFree(db, id, db.orders[id].version + 1) then RolledBack(UniqueViolation)
    else Committed(Release(Move(db, id, "order.expired", Expired, db.orders[id].failure), id))
  }

  // ---------------------------------------------------------------- settlement

  function MarkSubmitted(db: Db, key: Key, hash: Hash): Result {
    if key !in db.intents then Committed(db)
    else if HashTaken(db, key, hash) then RolledBack(UniqueViolation)
    else
      var intent := db.intents[key];
      Committed(db.(intents := db.intents[key :=
                intent.(hash := Some(hash), status := Submitted, attempts := intent.attempts + 1)]))
  }

  function MarkUnknown(db: Db, key: Key): Result {
    if key !in db.intents then Committed(db)
    else Committed(db.(intents := db.intents[key := db.intents[key].(status := UnknownOutcome)]))
  }

  function ResetSubmitted(db: Db, key: Key): Result {
    if key !in db.intents then Committed(db)
    else Committed(db.(intents := db.intents[key := db.intents[key].(hash := None, status := Pending)]))
  }

  function Confirm(db: Db, key: Key, hash: Hash, ledgerAt: Time): Result {
    if key !in db.intents then RolledBack(NotFound)
    else
      var intent := db.intents[key];
      var id := key.order;
      if intent.status == Confirmed then Committed(db)
      else if intent.hash != Some(hash) then RolledBack(HashMismatch)
      else if id !in db.reservations || id !in db.orders then RolledBack(NotFound)
      else if db.orders[id].status != StellarProcessing then RolledBack(InvalidState)
      else if !SlotFree(db, id, db.orders[id].version + 1) then RolledBack(UniqueViolation)
      else Committed(CompleteSettlement(db, key, ledgerAt))
  }

  // A reservation that is still reserved is used up.
  function Consume(db: Db, id: OrderId): Db
    requires id in db.reservations
  {
    if db.reservations[id].status != Reserved then db
    else
      db.(reservations := db.reservations[id := db.reservations[id].(status := Consumed)],
      treasury := GiveBack(db.treasury, db.reservations[id].amount))
  }

  function CompleteSettlement(db: Db, key: Key, ledgerAt: Time): Db
    requires key in db.intents && key.order in db.orders && key.order in db.reservations
  {
    Move(Consume(db, key.order), key.order, "stellar.transfer_confirmed", Completed, db.orders[key.order].failure).(
    intents := db.intents[key := db.intents[key].(status := Confirmed, ledgerAt := Some(ledgerAt))],
    outbox := Finish(db.outbox, SettleOnramp, key.order))
  }

  function FailPermanent(db: Db, key: Key): Result {
    if key !in db.intents then RolledBack(NotFound)
    else
      var id := key.order;
      if id !in db.orders then RolledBack(NotFound)
      else if db.orders[id].status != StellarProcessing then RolledBack(InvalidState)
      else if !SlotFree(db, id, db.orders[id].version + 1) then RolledBack(UniqueViolation)
      else Committed(FailIntent(db, key, "stellar.failed", StellarFailed, "stellar_permanent_failure", SettleOnramp))
  }

  // An intent and its order fail together and the job that carried them ends.
  function FailIntent(db: Db, key: Key, kind: string, next: Status, code: string, topic: Topic): Db
    requires key in db.intents && key.order in db.orders
  {
    Move(db, key.order, kind, next, Some(code)).(
    intents := db.intents[key := db.intents[key].(status := Failed)],
    outbox := Finish(db.outbox, topic, key.order))
  }

  function RetryLater(db: Db, key: Key, availableAt: Time): Result {
    if key !in db.intents then RolledBack(NotFound)
    else Committed(db.(outbox := Reschedule(db.outbox, SettleOnramp, key.order, availableAt)))
  }

  function Reschedule(outbox: seq<Message>, topic: Topic, order: OrderId, availableAt: Time): (result: seq<Message>)
    ensures |result| == |outbox|
    ensures forall i :: 0 <= i < |outbox| ==>
              result[i] == if IsOpen(outbox[i], topic, order)
                           then outbox[i].(availableAt := availableAt, lease := None) else outbox[i]
  {
    if outbox == [] then []
    else
      var last := outbox[|outbox| - 1];
      Reschedule(outbox[..|outbox| - 1], topic, order, availableAt)
      + [if IsOpen(last, topic, order) then last.(availableAt := availableAt, lease := None) else last]
  }

  // A message a worker may lease now.
  predicate Leasable(message: Message, topic: Topic, now: Time, maxAttempts: nat) {
    && message.topic == topic && !message.processed
    && message.availableAt <= now && message.attempts < maxAttempts
    && (message.lease.None? || message.lease.value.until < now)
  }

  // The order in which messages are leased: available first, then created first.
  predicate WaitedLonger(a: Message, b: Message) {
    a.availableAt < b.availableAt || (a.availableAt == b.availableAt && a.createdAt < b.createdAt)
  }

  function TakeLease(db: Db, index: nat, owner: string, until: Time): Result {
    if index >= |db.outbox| then RolledBack(NoJob)
    else
      var message := db.outbox[index];
      Committed(db.(outbox := db.outbox[index :=
                message.(lease := Some(Lease(owner, until)), attempts := message.attempts + 1)]))
  }

  // ---------------------------------------------------------------- off-ramp

  datatype OfframpRequest = OfframpRequest(
    id: OrderId,
    key: IdemKey,
    requestHash: string,
    fiat: int,
    stroops: int,
    assetIssuer: string,
    depositAccount: string,
    memo: string,
    expiresAt: Time)

  function CreateOfframp(db: Db, request: OfframpRequest): Result {
    var id := request.id;
    if id in db.orders || !SlotFree(db, id, 1) || !SlotFree(db, id, 2) then RolledBack(UniqueViolation)
    else if request.key in db.idempotency then RolledBack(UniqueViolation)
    else
      Committed(db.(
                orders := db.orders[id := OrderRow(Offramp, AssetPending, 2, request.fiat, request.stroops, KXLM,
                request.assetIssuer, Some(request.depositAccount), Some(request.memo), Some(request.expiresAt), None)],
                events := db.events[id := EventsOf(db, id) + [
                Event(1, "order.created", None, Created),
                Event(2, "deposit.instructions_issued", Some(Created), AssetPending)]],
                idempotency := db.idempotency[request.key := Binding(request.requestHash, id)]))
  }

  // One row of ExpirePendingDeposits.
  function ExpireDeposit(db: Db, id: OrderId): Result {
    if id !in db.orders || db.orders[id].status != AssetPending then RolledBack(InvalidState)
    else if !SlotFree(db, id, db.orders[id].version + 1) then RolledBack(UniqueViolation)
    else Committed(Move(db, id, "order.expired", Expired, db.orders[id].failure))
  }

  // A payment observed on the ledger. The zero time of an unset ledger_at is None.
  datatype Payment = Payment(
    hash: Hash,
    from: string,
    to: string,
    assetCode: string,
    assetIssuer: string,
    amount: int,
    memo: string,
    ledgerAt: Option<Time>)

  predicate ValidDeposit(row: OrderRow, payment: Payment) {
    && row.direction == Offramp
    && payment.hash != ""
    && row.source == Some(payment.to)
    && payment.assetCode == row.assetCode && payment.assetIssuer == row.assetIssuer
    && payment.amount == row.stroops
    && row.memo == Some(payment.memo)
    && payment.ledgerAt.Some?
  }

  function RecordAssetReceived(db: Db, id: OrderId, payment: Payment, now: Time): Result {
    if id !in db.orders then RolledBack(NotFound)
    else
      var row := db.orders[id];
      if row.status in {AssetReceived, RetirementProcessing, WithdrawalProcessing, Completed} then Committed(db)
      else if row.status != AssetPending then RolledBack(InvalidState)
      else if !ValidDeposit(row, payment) then RolledBack(InvalidDeposit)
      else if HashTaken(db, Key(id, Deposit), payment.hash) || DepositIntentTaken(db, payment.hash)
              || Key(id, Deposit) in db.intents || Key(id, Retirement) in db.intents
              || !SlotFree(db, id, row.version + 1) || !SlotFree(db, id, row.version + 2)
      then RolledBack(UniqueViolation)
      else Committed(StartRetirement(db, id, payment, now))
  }

  // The deposit is evidence, and its retirement is queued with it.
  function StartRetirement(db: Db, id: OrderId, payment: Payment, now: Time): Db
    requires id in db.orders
  {
    var row := db.orders[id];
    var received := Move(db, id, "asset.received", AssetReceived, row.failure);
    var moved := Move(received, id, "retirement.requested", RetirementProcessing, row.failure);
    moved.(
    intents := db.intents[Key(id, Deposit) := Intent(row.stroops, Confirmed, Some(payment.hash), payment.ledgerAt, 1)]
    [Key(id, Retirement) := Intent(row.stroops, Pending, None, None, 0)],
    outbox := db.outbox + [NewMessage(RetireOfframp, id, now)])
  }

  function RecordAssetInvalid(db: Db, id: OrderId): Result {
    if id !in db.orders || db.orders[id].status != AssetPending then RolledBack(InvalidState)
    else if !SlotFree(db, id, db.orders[id].version + 1) then RolledBack(UniqueViolation)
    else Committed(Move(db, id, "asset.invalid", AssetInvalid, Some("deposit_mismatch")))
  }

  function SaveRetirementHash(db: Db, key: Key, hash: Hash): Result {
    if !(key in db.intents && key.purpose == Retirement && db.intents[key].status == Pending
         && db.intents[key].hash.None? && db.intents[key].ledgerAt.None?) then RolledBack(HashAlreadySaved)
    else if HashTaken(db, key, hash) then RolledBack(UniqueViolation)
    else
      var intent := db.intents[key];
      Committed(db.(intents := db.intents[key :=
                intent.(hash := Some(hash), status := Submitted, attempts := intent.attempts + 1)]))
  }

  function ResetRetirementHash(db: Db, key: Key, hash: Hash): Result {
    if !(key in db.intents && key.purpose == Retirement && db.intents[key].status == Submitted
         && db.intents[key].hash == Some(hash) && db.intents[key].ledgerAt.None?) then RolledBack(InvalidState)
    else Committed(db.(intents := db.intents[key := db.intents[key].(hash := None, status := Pending)]))
  }

  predicate Requeueable(db: Db, message: Message, now: Time, maxAttempts: nat) {
    var key := Key(message.order, Retirement);
    && message.topic == RetireOfframp && !message.processed && message.attempts >= maxAttempts
    && (message.lease.None? || message.lease.value.until <= now)
    && key in db.intents && db.intents[key].status == Pending
    && db.intents[key].hash.None? && db.intents[key].ledgerAt.None?
    && message.order in db.orders && db.orders[message.order].direction == Offramp
    && db.orders[message.order].status == RetirementProcessing
  }

  function Requeued(db: Db, message: Message, now: Time, maxAttempts: nat): Message {
    if Requeueable(db, message, now, maxAttempts)
    then message.(attempts := 0, availableAt := now, lease := None) else message
  }

  function RequeueRetirements(db: Db, now: Time, maxAttempts: int): Result {
    if maxAttempts <= 0 then RolledBack(InvalidState)
    else Committed(db.(outbox := RequeueAll(db, db.outbox, now, maxAttempts)))
  }

  function RequeueAll(db: Db, outbox: seq<Message>, now: Time, maxAttempts: nat): (result: seq<Message>)
    ensures |result| == |outbox|
    ensures forall i :: 0 <= i < |outbox| ==> result[i] == Requeued(db, outbox[i], now, maxAttempts)
  {
    if outbox == [] then []
    else
      RequeueAll(db, outbox[..|outbox| - 1], now, maxAttempts)
      + [Requeued(db, outbox[|outbox| - 1], now, maxAttempts)]
  }

  // The common end of a retirement: the order goes on to its withdrawal, the
  // retirement job is finished and the payout job is enqueued.
  function ToWithdrawal(db: Db, id: OrderId, kind: string, now: Time): Db
    requires id in db.orders
  {
    Move(db, id, kind, WithdrawalProcessing, db.orders[id].failure).(
    outbox := Finish(db.outbox, RetireOfframp, id) + [NewMessage(SimulatePayout, id, now)])
  }

  function SimulateRetirement(db: Db, key: Key, now: Time): Result {
    if key !in db.intents || key.purpose != Retirement || key.order !in db.orders then RolledBack(NotFound)
    else
      var intent := db.intents[key];
      var row := db.orders[key.order];
      if intent.status == Simulated then
        if intent.hash.None? && intent.ledgerAt.None? && row.status in {WithdrawalProcessing, Completed}
        then Committed(db) else RolledBack(InvalidState)
      else if intent.status != Pending || intent.hash.Some? || intent.ledgerAt.Some? then RolledBack(AfterSubmission)
      else if row.direction != Offramp || row.status != RetirementProcessing then RolledBack(InvalidState)
      else if !SlotFree(db, key.order, row.version + 1) then RolledBack(UniqueViolation)
      else
        Committed(ToWithdrawal(db, key.order, "retirement.simulated", now).(
                  intents := db.intents[key := intent.(status := Simulated)]))
  }

  function ConfirmRetirement(db: Db, key: Key, hash: Hash, ledgerAt: Time, now: Time): Result {
    if key !in db.intents then RolledBack(NotFound)
    else
      var intent := db.intents[key];
      if intent.status == Confirmed then Committed(db)
      else if intent.hash != Some(hash) then RolledBack(HashMismatch)
      else if key.order !in db.orders then RolledBack(NotFound)
      else if db.orders[key.order].status != RetirementProcessing then RolledBack(InvalidState)
      else if !SlotFree(db, key.order, db.orders[key.order].version + 1) then RolledBack(UniqueViolation)
      else
        Committed(ToWithdrawal(db, key.order, "retirement.confirmed", now).(
                  intents := db.intents[key := intent.(status := Confirmed, ledgerAt := Some(ledgerAt))]))
  }

  function FailRetirement(db: Db, key: Key): Result {
    if key !in db.intents || key.order !in db.orders then RolledBack(NotFound)
    else if db.orders[key.order].status != RetirementProcessing then RolledBack(InvalidState)
    else if !SlotFree(db, key.order, db.orders[key.order].version + 1) then RolledBack(UniqueViolation)
    else Committed(FailIntent(db, key, "retirement.failed", RetirementFailed, "retirement_failed", RetireOfframp))
  }

  function PayoutReference(id: OrderId): string {
    "sandbox-payout-" + id
  }

  function FinishMessage(outbox: seq<Message>, index: nat, topic: Topic): seq<Message> {
    if index < |outbox| && outbox[index].topic == topic && !outbox[index].processed
    then outbox[index := Processed(outbox[index])] else outbox
  }

  function CompletePayout(db: Db, id: OrderId, index: nat): Result {
    if id !in db.orders then RolledBack(NotFound)
    else
      var row := db.orders[id];
      if row.status !in {WithdrawalProcessing, Completed} then RolledBack(InvalidState)
      // The public event of a completed off-ramp order quotes its retirement.
      else if row.status == WithdrawalProcessing && Key(id, Retirement) !in db.intents then RolledBack(NotFound)
      else if row.status == WithdrawalProcessing && !SlotFree(db, id, row.version + 1) then RolledBack(UniqueViolation)
      else Committed(PayOut(db, id, index))
  }

  function PayOut(db: Db, id: OrderId, index: nat): Db
    requires id in db.orders
  {
    var row := db.orders[id];
    var moved := if row.status == WithdrawalProcessing
                 then Move(db, id, "payout.simulated", Completed, row.failure) else db;
    moved.(
    payouts := if id in db.payouts then db.payouts else db.payouts[id := Payout(row.fiat, PayoutReference(id))],
    outbox := FinishMessage(db.outbox, index, SimulatePayout))
  }
}
