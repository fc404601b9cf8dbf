// What is true of the money tables after every transaction.
//
// All that the tables hold about one order is its View. A transaction touches
// one order's view; the invariant is a predicate on each view, plus three
// facts that span orders: the treasury counter, the unique hashes and the
// idempotency bindings.
module Invariant {
  import opened Prelude
  import opened Orders
  import opened Ledger

  // Unprocessed messages of an order, by topic.
  datatype Jobs = Jobs(settle: nat, retire: nat, payout: nat)

  datatype View = View(
    row: Option<OrderRow>,
    log: seq<Event>,
    reservation: Option<Reservation>,
    transfer: Option<Intent>,
    deposit: Option<Intent>,
    retirement: Option<Intent>,
    payout: Option<Payout>,
    jobs: Jobs)

  function Get<K, V>(table: map<K, V>, key: K): Option<V> {
    if key in table then Some(table[key]) else None
  }

  function JobsOf(outbox: seq<Message>, id: OrderId): Jobs {
    Jobs(Open(outbox, SettleOnramp, id), Open(outbox, RetireOfframp, id), Open(outbox, SimulatePayout, id))
  }

  function ViewOf(db: Db, id: OrderId): View {
    View(Get(db.orders, id), EventsOf(db, id), Get(db.reservations, id),
         Get(db.intents, Key(id, Transfer)), Get(db.intents, Key(id, Deposit)), Get(db.intents, Key(id, Retirement)),
         Get(db.payouts, id), JobsOf(db.outbox, id))
  }

  const NO_JOBS := Jobs(0, 0, 0)

  function ExpectedReservation(status: Status): ReservationStatus {
    match status
    case PaymentFailed => Released
    case Expired => Released
    case Completed => Consumed
    case _ => Reserved
  }

  predicate SubmittedOrNot(intent: Intent) {
    && intent.ledgerAt.None?
    && (intent.status == Pending <==> intent.hash.None?)
    && intent.status in {Pending, Submitted, UnknownOutcome}
  }

  // The writes of settlement runs are not guarded in the database, so how far
  // a transfer has come can be read off it only while runs of one transfer do
  // not overlap. The strict invariant includes it; everything else is true
  // either way.
  predicate TransferOk(intent: Intent, row: OrderRow, strict: bool) {
    && intent.amount == row.stroops
    && (strict ==>
          match row.status
          case StellarProcessing => SubmittedOrNot(intent)
          case Completed => intent.status == Confirmed && intent.hash.Some? && intent.ledgerAt.Some?
          case _ => intent.status == Failed && intent.ledgerAt.None?)
  }

  predicate OnrampOk(view: View, row: OrderRow, strict: bool) {
    && row.status in {Created, PaymentPending, PaymentFailed, Expired, StellarProcessing, Completed, StellarFailed}
    && view.reservation.Some?
    && view.reservation.value.status == ExpectedReservation(row.status)
    && view.reservation.value.amount == KXLM_ISSUE_FEE_RESERVE
    && view.deposit.None? && view.retirement.None? && view.payout.None?
    && (view.transfer.Some? <==> row.status in {StellarProcessing, Completed, StellarFailed})
    && (view.transfer.Some? ==> TransferOk(view.transfer.value, row, strict))
    && view.jobs == Jobs(if row.status == StellarProcessing then 1 else 0, 0, 0)
  }

  predicate RetirementOk(intent: Intent, row: OrderRow) {
    && intent.amount == row.stroops
    && match row.status
       case RetirementProcessing => SubmittedOrNot(intent) && intent.status != UnknownOutcome
       case RetirementFailed => intent.status == Failed && intent.ledgerAt.None?
       case _ =>
         || (intent.status == Confirmed && intent.hash.Some? && intent.ledgerAt.Some?)
         || (intent.status == Simulated && intent.hash.None? && intent.ledgerAt.None?)
  }

  predicate OfframpOk(view: View, row: OrderRow) {
    && row.status in {AssetPending, Expired, AssetInvalid, RetirementProcessing, WithdrawalProcessing, Completed, RetirementFailed}
    && view.reservation.None? && view.transfer.None?
    && (view.deposit.Some? <==> row.status in {RetirementProcessing, WithdrawalProcessing, Completed, RetirementFailed})
    && (view.retirement.Some? <==> view.deposit.Some?)
    && (view.deposit.Some? ==>
          && view.deposit.value.status == Confirmed && view.deposit.value.hash.Some?
          && view.deposit.value.ledgerAt.Some?
          && view.deposit.value.amount == row.stroops)
    && (view.retirement.Some? ==> RetirementOk(view.retirement.value, row))
    && (view.payout.Some? <==> row.status == Completed)
    && (view.payout.Some? ==> view.payout.value.amount == row.fiat)
    && view.jobs == Jobs(0, if row.status == RetirementProcessing then 1 else 0,
                         if row.status == WithdrawalProcessing then 1 else 0)
  }

  predicate ViewOk(view: View, strict: bool) {
    match view.row
    case None => view == View(None, [], None, None, None, None, None, NO_JOBS)
    case Some(row) =>
      && Replay(view.log) == Some(Aggregate(row.status, row.version))
      && (row.direction == Onramp ==> OnrampOk(view, row, strict))
      && (row.direction == Offramp ==> OfframpOk(view, row))
  }

  // ---------------------------------------------------------------- treasury

  function Held(reservation: Reservation): int {
    if reservation.status == Reserved then reservation.amount else 0
  }

  // The stroops of all reservations in status reserved.
  ghost function SumReserved(reservations: map<OrderId, Reservation>): int {
    if reservations == map[] then 0
    else
      var id :| id in reservations;
      Held(reservations[id]) + SumReserved(reservations - {id})
  }

  lemma {:induction false} SumReservedSplit(reservations: map<OrderId, Reservation>, id: OrderId)
    requires id in reservations
    ensures SumReserved(reservations) == Held(reservations[id]) + SumReserved(reservations - {id})
    decreases |reservations|
  {
    var first :| first in reservations
      && SumReserved(reservations) == Held(reservations[first]) + SumReserved(reservations - {first});
    if first != id {
      SumReservedSplit(reservations - {first}, id);
      SumReservedSplit(reservations - {id}, first);
      assert reservations - {first} - {id} == reservations - {id} - {first};
    }
  }

  lemma SumReservedUpdate(reservations: map<OrderId, Reservation>, id: OrderId, next: Reservation)
    ensures SumReserved(reservations[id := next])
         == SumReserved(reservations) + Held(next) - (if id in reservations then Held(reservations[id]) else 0)
  {
    var updated := reservations[id := next];
    SumReservedSplit(updated, id);
    assert updated - {id} == reservations - {id};
    if id in reservations {
      SumReservedSplit(reservations, id);
    } else {
      assert reservations - {id} == reservations;
    }
  }

  // The counter is the sum of the reservations it counts, and the balance
  // observed at the last admission still covers it and the buffer.
  ghost predicate TreasuryOk(db: Db) {
    match db.treasury
    case None => db.reservations == map[]
    case Some(t) => t.reserved == SumReserved(db.reservations) && t.observed - t.reserved - t.buffer >= 0
  }

  // ---------------------------------------------------------------- unique keys

  ghost predicate HashesUnique(db: Db) {
    forall k1, k2 :: k1 in db.intents && k2 in db.intents && k1 != k2 && db.intents[k1].hash.Some?
                     ==> db.intents[k1].hash != db.intents[k2].hash
  }

  // Every binding leads to an order of its own, of the operation it was made for.
  ghost predicate BindingsOk(db: Db) {
    && (forall key :: key in db.idempotency ==>
          && db.idempotency[key].order in db.orders
          && db.orders[db.idempotency[key].order].direction == key.operation)
    && (forall k1, k2 :: k1 in db.idempotency && k2 in db.idempotency && k1 != k2
                         ==> db.idempotency[k1].order != db.idempotency[k2].order)
  }

  ghost predicate CheckoutsOk(db: Db) {
    forall provider :: provider in db.checkouts ==>
      && db.checkouts[provider].order in db.orders
      && db.checkouts[provider].amount == db.orders[db.checkouts[provider].order].fiat
  }

  predicate Belongs(db: Db, message: Message) {
    && message.order in db.orders
    && db.orders[message.order].direction == (if message.topic == SettleOnramp then Onramp else Offramp)
    && (message.topic == SimulatePayout && message.processed ==> db.orders[message.order].status == Completed)
  }

  // No message is orphaned: each names an order that its topic is for, and a
  // payout job is only ever finished with its order.
  ghost predicate OutboxOk(db: Db) {
    forall i :: 0 <= i < |db.outbox| ==> Belongs(db, db.outbox[i])
  }

  ghost predicate Inv(db: Db, strict: bool) {
    && (forall id: OrderId :: ViewOk(ViewOf(db, id), strict))
    && TreasuryOk(db)
    && HashesUnique(db)
    && BindingsOk(db)
    && CheckoutsOk(db)
    && OutboxOk(db)
  }

  lemma EmptyInv(strict: bool)
    ensures Inv(EMPTY, strict)
  {
  }

  // ---------------------------------------------------------------- outbox

  lemma JobsAppend(outbox: seq<Message>, message: Message, id: OrderId)
    ensures JobsOf(outbox + [message], id) == AddJob(JobsOf(outbox, id), message, id)
  {
    assert (outbox + [message])[..|outbox|] == outbox;
  }

  function AddJob(jobs: Jobs, message: Message, id: OrderId): Jobs {
    Jobs(jobs.settle + (if IsOpen(message, SettleOnramp, id) then 1 else 0),
         jobs.retire + (if IsOpen(message, RetireOfframp, id) then 1 else 0),
         jobs.payout + (if IsOpen(message, SimulatePayout, id) then 1 else 0))
  }

  // Counting depends on nothing but which messages are open.
  lemma {:induction false} OpenSame(a: seq<Message>, b: seq<Message>, topic: Topic, id: OrderId)
    requires |a| == |b|
    requires forall i :: 0 <= i < |a| ==> (IsOpen(a[i], topic, id) <==> IsOpen(b[i], topic, id))
    ensures Open(a, topic, id) == Open(b, topic, id)
  {
    if a != [] {
      OpenSame(a[..|a| - 1], b[..|b| - 1], topic, id);
    }
  }

  lemma {:induction false} OpenNone(outbox: seq<Message>, topic: Topic, id: OrderId)
    ensures Open(outbox, topic, id) == 0 <==> forall i :: 0 <= i < |outbox| ==> !IsOpen(outbox[i], topic, id)
  {
    if outbox != [] {
      var init := outbox[..|outbox| - 1];
      OpenNone(init, topic, id);
      assert forall i :: 0 <= i < |init| ==> init[i] == outbox[i];
      assert forall i :: 0 <= i < |outbox| ==> i == |outbox| - 1 || outbox[i] == init[i];
    }
  }

  lemma {:induction false} OpenUpdate(outbox: seq<Message>, i: nat, message: Message, topic: Topic, id: OrderId)
    requires i < |outbox|
    ensures Open(outbox[i := message], topic, id)
         == Open(outbox, topic, id) - (if IsOpen(outbox[i], topic, id) then 1 else 0)
            + (if IsOpen(message, topic, id) then 1 else 0)
  {
    var updated := outbox[i := message];
    if i == |outbox| - 1 {
      assert updated[..i] == outbox[..i];
    } else {
      assert updated[..|outbox| - 1] == outbox[..|outbox| - 1][i := message];
      OpenUpdate(outbox[..|outbox| - 1], i, message, topic, id);
    }
  }

  // Rewriting messages without opening or closing any leaves every order's
  // jobs as they were.
  lemma JobsSame(a: seq<Message>, b: seq<Message>, id: OrderId)
    requires |a| == |b|
    requires forall i :: 0 <= i < |a| ==> SameJob(a[i], b[i])
    ensures JobsOf(a, id) == JobsOf(b, id)
  {
    OpenSame(a, b, SettleOnramp, id);
    OpenSame(a, b, RetireOfframp, id);
    OpenSame(a, b, SimulatePayout, id);
  }

  predicate SameJob(a: Message, b: Message) {
    a.topic == b.topic && a.order == b.order && a.processed == b.processed
  }

  function ClearJob(jobs: Jobs, topic: Topic): Jobs {
    match topic
    case SettleOnramp => jobs.(settle := 0)
    case RetireOfframp => jobs.(retire := 0)
    case SimulatePayout => jobs.(payout := 0)
  }

  lemma JobsFinish(outbox: seq<Message>, topic: Topic, order: OrderId, id: OrderId)
    ensures JobsOf(Finish(outbox, topic, order), id)
         == if id == order then ClearJob(JobsOf(outbox, id), topic) else JobsOf(outbox, id)
  {
    var finished := Finish(outbox, topic, order);
    forall t: Topic | id != order || t != topic
      ensures Open(finished, t, id) == Open(outbox, t, id)
    {
      OpenSame(finished, outbox, t, id);
    }
    if id == order {
      OpenNone(finished, topic, id);
    }
  }
}
