// The repositories, as methods that update the tables in place.
//
// Each transaction writes row by row in the order the repository does and
// restores what it saved when a later statement fails. Its contract is the
// transaction of module Ledger on the tables as they were.
module Repositories {
  import opened Prelude
  import opened Orders
  import opened Ledger
  import opened Sweeps

  // A transaction did what `result` says: it committed its tables, or failed
  // and left them alone.
  ghost predicate Ran(before: Db, after: Db, failure: Option<Error>, result: Result) {
    match result
    case Committed(db) => failure == None && after == db
    case RolledBack(error) => failure == Some(error) && after == before
  }

  // The statements of a transaction did what `result` says up to the first
  // that failed; what is then written is for the transaction to restore.
  ghost predicate Wrote(after: Db, failure: Option<Error>, result: Result) {
    match result
    case Committed(db) => failure == None && after == db
    case RolledBack(error) => failure == Some(error)
  }

  // A move takes no other slot of the order's log than the next.
  lemma MoveSlot(db: Db, id: OrderId, kind: string, next: Status, failure: Option<string>, version: nat)
    requires id in db.orders && version != db.orders[id].version + 1
    ensures SlotFree(Move(db, id, kind, next, failure), id, version) <==> SlotFree(db, id, version)
  {
    var log := EventsOf(db, id);
    var longer := EventsOf(Move(db, id, kind, next, failure), id);
    assert forall i :: 0 <= i < |log| ==> longer[i] == log[i];
  }

  // Slots and moves depend on nothing but the order's own rows.
  lemma SameSlots(a: Db, b: Db, id: OrderId)
    requires a.events == b.events
    ensures EventsOf(a, id) == EventsOf(b, id)
    ensures forall version: nat :: SlotFree(a, id, version) <==> SlotFree(b, id, version)
  {
    assert EventsOf(a, id) == EventsOf(b, id);
  }

  lemma AppendedSlot(before: Db, after: Db, id: OrderId, event: Event, second: Event)
    requires after.events == before.events[id := EventsOf(before, id) + [event]] && event.version != second.version
    ensures SlotFree(after, id, second.version) <==> SlotFree(before, id, second.version)
    ensures after.events[id := EventsOf(after, id) + [second]] == before.events[id := EventsOf(before, id) + [event, second]]
  {
    var log := EventsOf(before, id);
    assert forall i :: 0 <= i < |log| ==> EventsOf(after, id)[i] == log[i];
    assert EventsOf(after, id) + [second] == log + [event, second];
  }

  // A move reads and writes nothing but the order and its log.
  lemma MoveFrame(a: Db, b: Db, id: OrderId, kind: string, next: Status, failure: Option<string>)
    requires id in a.orders && a.orders == b.orders && a.events == b.events
    ensures var moved := Move(a, id, kind, next, failure);
            && moved == a.(orders := moved.orders, events := moved.events) && moved.orders.Keys == a.orders.Keys
            && Move(b, id, kind, next, failure) == b.(orders := moved.orders, events := moved.events)
  {
  }

  class Database {
    var orders: map<OrderId, OrderRow>
    var events: map<OrderId, seq<Event>>
    var reservations: map<OrderId, Reservation>
    var treasury: Option<Treasury>
    var intents: map<Key, Intent>
    var outbox: seq<Message>
    var payouts: map<OrderId, Payout>
    var idempotency: map<IdemKey, Binding>
    var checkouts: map<string, Checkout>
    var callbacks: map<string, Callback>

    function Tables(): Db
      reads this
    {
      Db(orders, events, reservations, treasury, intents, outbox, payouts, idempotency, checkouts, callbacks)
    }

    constructor ()
      ensures Tables() == EMPTY
    {
      orders, events, reservations, treasury, intents := map[], map[], map[], None, map[];
      outbox, payouts, idempotency, checkouts, callbacks := [], map[], map[], map[], map[];
    }

    method Restore(saved: Db)
      modifies this
      ensures Tables() == saved
    {
      orders, events, reservations := saved.orders, saved.events, saved.reservations;
      treasury, intents, outbox := saved.treasury, saved.intents, saved.outbox;
      payouts, idempotency, checkouts, callbacks := saved.payouts, saved.idempotency, saved.checkouts, saved.callbacks;
    }

    // ---------------------------------------------------------------- rows

    // Appends to the order's log unless the version is already there.
    method AppendEvent(id: OrderId, version: nat, kind: string, previous: Option<Status>, next: Status) returns (ok: bool)
      modifies `events
      ensures ok == SlotFree(old(Tables()), id, version)
      ensures events == if ok then old(events)[id := EventsOf(old(Tables()), id) + [Event(version, kind, previous, next)]]
                        else old(events)
    {
      var saved := Tables();
      var log := EventsOf(saved, id);
      for i := 0 to |log|
        invariant events == old(events)
        invariant forall j :: 0 <= j < i ==> log[j].version != version
      {
        if log[i].version == version {
          assert EventsOf(saved, id)[i].version == version;
          return false;
        }
      }
      events := events[id := log + [Event(version, kind, previous, next)]];
      return true;
    }

    method SetStatus(id: OrderId, next: Status, failure: Option<string>)
      requires id in orders
      modifies `orders
      ensures orders == old(orders)[id := old(orders)[id].(status := next, version := old(orders)[id].version + 1, failure := failure)]
    {
      var row := orders[id];
      orders := orders[id := row.(status := next, version := row.version + 1, failure := failure)];
    }

    // The order update and the event that goes with it.
    method Advance(id: OrderId, kind: string, next: Status, failure: Option<string>) returns (ok: bool)
      requires id in orders
      modifies `orders, `events
      ensures orders == old(orders)[id := old(orders)[id].(status := next, version := old(orders)[id].version + 1, failure := failure)]
      ensures ok == SlotFree(old(Tables()), id, old(orders)[id].version + 1)
      ensures ok ==> Tables() == Move(old(Tables()), id, kind, next, failure)
    {
      var row := orders[id];
      ghost var saved := Tables();
      SetStatus(id, next, failure);
      assert EventsOf(Tables(), id) == EventsOf(saved, id);
      ok := AppendEvent(id, row.version + 1, kind, Some(row.status), next);
    }

    method Enqueue(topic: Topic, id: OrderId, now: Time)
      modifies `outbox
      ensures outbox == old(outbox) + [NewMessage(topic, id, now)]
    {
      outbox := outbox + [NewMessage(topic, id, now)];
    }

    method FinishMessages(topic: Topic, id: OrderId)
      modifies `outbox
      ensures outbox == Finish(old(outbox), topic, id)
    {
      ghost var finished := Finish(outbox, topic, id);
      for i := 0 to |outbox|
        invariant |outbox| == |old(outbox)|
        invariant forall j :: 0 <= j < i ==> outbox[j] == finished[j]
        invariant forall j :: i <= j < |outbox| ==> outbox[j] == old(outbox)[j]
      {
        if IsOpen(outbox[i], topic, id) {
          outbox := outbox[i := Processed(outbox[i])];
        }
      }
    }

    // Gives a reservation's amount back to the treasury and closes it.
    method CloseReservation(id: OrderId, status: ReservationStatus)
      requires id in reservations
      modifies `reservations, `treasury
      ensures reservations == old(reservations)[id := old(reservations)[id].(status := status)]
      ensures treasury == GiveBack(old(treasury), old(reservations)[id].amount)
    {
      var reservation := reservations[id];
      reservations := reservations[id := reservation.(status := status)];
      match treasury
      case None =>
      case Some(t) => treasury := Some(t.(reserved := t.reserved - reservation.amount));
    }

    // A reservation still reserved is used up.
    method ConsumeReservation(id: OrderId)
      requires id in reservations
      modifies `reservations, `treasury
      ensures reservations == Consume(old(Tables()), id).reservations && treasury == Consume(old(Tables()), id).treasury
    {
      if reservations[id].status == Reserved {
        CloseReservation(id, Consumed);
      }
    }

    // ---------------------------------------------------------------- on-ramp

    method LockTreasury(observed: int, buffer: int) returns (t: Treasury)
      modifies `treasury
      ensures t == Ledger.LockTreasury(old(treasury), observed, buffer) && treasury == Some(t)
    {
      match treasury
      case None =>
        t := Treasury(observed, 0, buffer);
        treasury := Some(t);
      case Some(row) =>
        t := row.(observed := observed);
        treasury := Some(t);
    }

    method ReserveAndCreate(request: OnrampRequest, observed: int, buffer: int) returns (failure: Option<Error>)
      modifies this
      ensures Ran(old(Tables()), Tables(), failure, Ledger.ReserveAndCreate(old(Tables()), request, observed, buffer))
    {
      hide Ledger.ReserveAndCreate;
      var saved := Tables();
      failure := ReserveAndCreateBody(request, observed, buffer);
      if failure.Some? {
        Restore(saved);
      }
    }

    method ReserveAndCreateBody(request: OnrampRequest, observed: int, buffer: int) returns (failure: Option<Error>)
      modifies this
      ensures Wrote(Tables(), failure, Ledger.ReserveAndCreate(old(Tables()), request, observed, buffer))
    {
      hide SlotFree, EventsOf;
      ghost var saved := Tables();
      var id := request.id;
      var t := LockTreasury(observed, buffer);
      if t.observed - t.reserved - t.buffer < KXLM_ISSUE_FEE_RESERVE {
        return Some(InsufficientLiquidity);
      }
      if id in orders || id in reservations {
        return Some(UniqueViolation);
      }
      orders := orders[id := OrderRow(Onramp, Created, 1, request.fiat, request.stroops, KXLM,
                                      request.treasuryAccount, Some(request.treasuryAccount), request.memo, None, None)];
      reservations := reservations[id := Reservation(KXLM_ISSUE_FEE_RESERVE, Reserved, request.quoteExpiresAt)];
      treasury := Some(t.(reserved := t.reserved + KXLM_ISSUE_FEE_RESERVE));
      SameSlots(saved, Tables(), id);
      var ok := AppendEvent(id, 1, "order.created", None, Created);
      if !ok || request.key in idempotency {
        return Some(UniqueViolation);
      }
      idempotency := idempotency[request.key := Binding(request.requestHash, id)];
      return None;
    }

    method AttachCheckout(id: OrderId, provider: string, requestId: Option<string>, channel: string)
      returns (failure: Option<Error>)
      modifies this
      ensures Ran(old(Tables()), Tables(), failure, Ledger.AttachCheckout(old(Tables()), id, provider, requestId, channel))
    {
      var saved := Tables();
      if id !in orders {
        return Some(NotFound);
      }
      if orders[id].status != Created {
        return Some(InvalidState);
      }
      if provider in checkouts || CheckoutRequestTaken(saved, requestId) {
        return Some(UniqueViolation);
      }
      checkouts := checkouts[provider := Checkout(id, orders[id].fiat, requestId, channel)];
      var ok := Advance(id, "checkout.created", PaymentPending, orders[id].failure);
      if !ok {
        Restore(saved);
        return Some(UniqueViolation);
      }
      return None;
    }

    method FailCheckout(id: OrderId) returns (failure: Option<Error>)
      modifies this
      ensures Ran(old(Tables()), Tables(), failure, Ledger.FailCheckout(old(Tables()), id))
    {
      var saved := Tables();
      if id !in orders {
        return Some(NotFound);
      }
      if orders[id].status != Created {
        return Some(InvalidState);
      }
      if id !in reservations || reservations[id].status != Reserved {
        return Some(NotFound);
      }
      CloseReservation(id, Released);
      var ok := Advance(id, "checkout.failed", PaymentFailed, Some("checkout_failed"));
      if !ok {
        Restore(saved);
        return Some(UniqueViolation);
      }
      return None;
    }

    method MarkCheckoutUnknown(id: OrderId)
      modifies `orders
      ensures Committed(Tables()) == Ledger.MarkCheckoutUnknown(old(Tables()), id)
    {
      if id in orders && orders[id].status == Created {
        orders := orders[id := orders[id].(failure := Some("checkout_unknown"))];
      }
    }

    method ConfirmPayment(id: OrderId, eventId: string, now: Time) returns (failure: Option<Error>)
      modifies this
      ensures Ran(old(Tables()), Tables(), failure, Ledger.ConfirmPayment(old(Tables()), id, eventId, now))
    {
      hide Ledger.ConfirmPayment;
      var saved := Tables();
      failure := ConfirmPaymentBody(id, eventId, now);
      if failure.Some? {
        Restore(saved);
      }
    }

    method ConfirmPaymentBody(id: OrderId, eventId: string, now: Time) returns (failure: Option<Error>)
      modifies this
      ensures Wrote(Tables(), failure, Ledger.ConfirmPayment(old(Tables()), id, eventId, now))
    {
      hide SlotFree, EventsOf, StartSettlement;
      if id !in orders {
        return Some(NotFound);
      }
      if orders[id].status == StellarProcessing || orders[id].status == Completed {
        return None;
      }
      if orders[id].status != PaymentPending {
        return Some(InvalidState);
      }
      var ok := BeginSettlement(id, eventId, now);
      return if ok then None else Some(UniqueViolation);
    }

    // The writes of a confirmed payment, up to the first that fails.
    method BeginSettlement(id: OrderId, eventId: string, now: Time) returns (ok: bool)
      requires id in orders
      modifies this
      ensures ok <==> && Key(id, Transfer) !in old(intents)
                      && SlotFree(old(Tables()), id, old(orders)[id].version + 1)
                      && SlotFree(old(Tables()), id, old(orders)[id].version + 2)
      ensures ok ==> Tables() == StartSettlement(old(Tables()), id, eventId, now)
    {
      hide SlotFree, EventsOf, Move;
      ghost var saved := Tables();
      var row := orders[id];
      MoveFrame(saved, saved, id, "payment.confirmed", PaymentConfirmed, row.failure);
      MoveSlot(saved, id, "payment.confirmed", PaymentConfirmed, row.failure, row.version + 2);
      ok := Advance(id, "payment.confirmed", PaymentConfirmed, row.failure);
      if !ok {
        return;
      }
      MoveFrame(Tables(), Tables(), id, "stellar.transfer_requested", StellarProcessing, row.failure);
      ok := Advance(id, "stellar.transfer_requested", StellarProcessing, row.failure);
      if !ok || Key(id, Transfer) in intents {
        return false;
      }
      intents := intents[Key(id, Transfer) := Intent(row.stroops, Pending, None, None, 0)];
      Enqueue(SettleOnramp, id, now);
      MatchReceipt(eventId, id);
    }

    method MatchReceipt(eventId: string, id: OrderId)
      modifies `callbacks
      ensures callbacks == MatchCallback(old(callbacks), eventId, id)
    {
      if eventId in callbacks {
        callbacks := callbacks[eventId := callbacks[eventId].(order := Some(id), result := "matched")];
      }
    }

    // ---------------------------------------------------------------- callbacks

    // The receipt of a provider event: whether it was already processed, or
    // None when the same event arrives with another payload.
    method RecordReceipt(eventId: string, payloadHash: string) returns (processed: Option<bool>)
      modifies `callbacks
      ensures eventId in old(callbacks) ==>
                && callbacks == old(callbacks)
                && processed == if old(callbacks)[eventId].payloadHash == payloadHash
                                then Some(old(callbacks)[eventId].processed) else None
      ensures eventId !in old(callbacks) ==>
                processed == Some(false) && callbacks == old(callbacks)[eventId := Callback(payloadHash, None, "pending", false)]
    {
      if eventId in callbacks {
        if callbacks[eventId].payloadHash != payloadHash {
          return None;
        }
        return Some(callbacks[eventId].processed);
      }
      callbacks := callbacks[eventId := Callback(payloadHash, None, "pending", false)];
      return Some(false);
    }

    // A checkout known to the provider under this id, of either kind.
    predicate Expected(provider: string, id: string)
      reads `checkouts
    {
      provider in checkouts && (provider == id || checkouts[provider].requestId == Some(id))
    }

    method ExpectedPayment(id: string) returns (checkout: Option<string>)
      ensures checkout.Some? ==> Expected(checkout.value, id)
      ensures checkout.None? ==> forall provider :: !Expected(provider, id)
    {
      if exists provider :: provider in checkouts && Expected(provider, id) {
        var provider :| provider in checkouts && Expected(provider, id);
        return Some(provider);
      }
      return None;
    }

    method CompleteCallback(eventId: string, result: string)
      modifies `callbacks
      ensures callbacks == if eventId in old(callbacks)
                           then old(callbacks)[eventId := old(callbacks)[eventId].(result := result, processed := true)]
                           else old(callbacks)
    {
      if eventId in callbacks {
        callbacks := callbacks[eventId := callbacks[eventId].(result := result, processed := true)];
      }
    }

    // ---------------------------------------------------------------- settlement

    // Leases the message of the topic that was available first, and of those
    // the one created first, that no other transaction has locked.
    method LeaseOutbox(topic: Topic, owner: string, now: Time, duration: Time, maxAttempts: nat, locked: set<nat>)
      returns (job: Option<nat>)
      modifies `outbox
      ensures job.None? <==> forall i :: 0 <= i < |old(outbox)| && Leasable(old(outbox)[i], topic, now, maxAttempts) ==> i in locked
      ensures job.None? ==> outbox == old(outbox)
      ensures job.Some? ==>
                && job.value < |old(outbox)| && job.value !in locked
                && Leasable(old(outbox)[job.value], topic, now, maxAttempts)
                && (forall i :: 0 <= i < |old(outbox)| && i !in locked && Leasable(old(outbox)[i], topic, now, maxAttempts) ==>
                      || old(outbox)[job.value].availableAt < old(outbox)[i].availableAt
                      || (&& old(outbox)[job.value].availableAt == old(outbox)[i].availableAt
                          && old(outbox)[job.value].createdAt <= old(outbox)[i].createdAt))
                && TakeLease(old(Tables()), job.value, owner, now + duration) == Committed(Tables())
    {
      job := None;
      for i := 0 to |outbox|
        invariant outbox == old(outbox)
        invariant job.None? ==> forall j :: 0 <= j < i && Leasable(outbox[j], topic, now, maxAttempts) ==> j in locked
        invariant job.Some? ==>
                    && job.value < i && job.value !in locked && Leasable(outbox[job.value], topic, now, maxAttempts)
                    && (forall j :: 0 <= j < i && j !in locked && Leasable(outbox[j], topic, now, maxAttempts) ==>
                          !WaitedLonger(outbox[j], outbox[job.value]))
      {
        if i !in locked && Leasable(outbox[i], topic, now, maxAttempts)
           && (job.None? || WaitedLonger(outbox[i], outbox[job.value])) {
          job := Some(i);
        }
      }
      if job.Some? {
        var message := outbox[job.value];
        outbox := outbox[job.value := message.(lease := Some(Lease(owner, now + duration)), attempts := message.attempts + 1)];
      }
    }

    method MarkSubmitted(key: Key, hash: Hash) returns (failure: Option<Error>)
      modifies `intents
      ensures Ran(old(Tables()), Tables(), failure, Ledger.MarkSubmitted(old(Tables()), key, hash))
    {
      if key in intents {
        if HashTaken(Tables(), key, hash) {
          return Some(UniqueViolation);
        }
        var intent := intents[key];
        intents := intents[key := intent.(hash := Some(hash), status := Submitted, attempts := intent.attempts + 1)];
      }
      return None;
    }

    method MarkUnknown(key: Key)
      modifies `intents
      ensures Committed(Tables()) == Ledger.MarkUnknown(old(Tables()), key)
    {
      if key in intents {
        intents := intents[key := intents[key].(status := UnknownOutcome)];
      }
    }

    method ResetSubmitted(key: Key)
      modifies `intents
      ensures Committed(Tables()) == Ledger.ResetSubmitted(old(Tables()), key)
    {
      if key in intents {
        intents := intents[key := intents[key].(hash := None, status := Pending)];
      }
    }

    method RetryLater(key: Key, availableAt: Time) returns (failure: Option<Error>)
      modifies `outbox
      ensures Ran(old(Tables()), Tables(), failure, Ledger.RetryLater(old(Tables()), key, availableAt))
    {
      if key !in intents {
        return Some(NotFound);
      }
      ghost var rescheduled := Reschedule(outbox, SettleOnramp, key.order, availableAt);
      for i := 0 to |outbox|
        invariant |outbox| == |old(outbox)|
        invariant forall j :: 0 <= j < i ==> outbox[j] == rescheduled[j]
        invariant forall j :: i <= j < |outbox| ==> outbox[j] == old(outbox)[j]
      {
        if IsOpen(outbox[i], SettleOnramp, key.order) {
          outbox := outbox[i := outbox[i].(availableAt := availableAt, lease := None)];
        }
      }
      assert outbox == rescheduled;
      return None;
    }

    method Confirm(key: Key, hash: Hash, ledgerAt: Time) returns (failure: Option<Error>)
      modifies this
      ensures Ran(old(Tables()), Tables(), failure, Ledger.Confirm(old(Tables()), key, hash, ledgerAt))
    {
      hide Ledger.Confirm;
      var saved := Tables();
      failure := ConfirmBody(key, hash, ledgerAt);
      if failure.Some? {
        Restore(saved);
      }
    }

    method ConfirmBody(key: Key, hash: Hash, ledgerAt: Time) returns (failure: Option<Error>)
      modifies this
      ensures Wrote(Tables(), failure, Ledger.Confirm(old(Tables()), key, hash, ledgerAt))
    {
      hide SlotFree, EventsOf, Ledger.CompleteSettlement;
      if key !in intents {
        return Some(NotFound);
      }
      if intents[key].status == Confirmed {
        return None;
      }
      if intents[key].hash != Some(hash) {
        return Some(HashMismatch);
      }
      if key.order !in reservations || key.order !in orders {
        return Some(NotFound);
      }
      if orders[key.order].status != StellarProcessing {
        return Some(InvalidState);
      }
      var ok := CompleteSettlement(key, ledgerAt);
      return if ok then None else Some(UniqueViolation);
    }

    // The writes of a confirmed transfer, up to the first that fails.
    method CompleteSettlement(key: Key, ledgerAt: Time) returns (ok: bool)
      requires key in intents && key.order in reservations && key.order in orders
      modifies this
      ensures ok <==> SlotFree(old(Tables()), key.order, old(orders)[key.order].version + 1)
      ensures ok ==> Tables() == Ledger.CompleteSettlement(old(Tables()), key, ledgerAt)
    {
      hide SlotFree, EventsOf, Finish, Move;
      ghost var saved := Tables();
      var id := key.order;
      var failure := orders[id].failure;
      intents := intents[key := intents[key].(status := Confirmed, ledgerAt := Some(ledgerAt))];
      ConsumeReservation(id);
      SameSlots(saved, Tables(), id);
      MoveFrame(Consume(saved, id), Tables(), id, "stellar.transfer_confirmed", Completed, failure);
      ok := Advance(id, "stellar.transfer_confirmed", Completed, failure);
      if ok {
        FinishMessages(SettleOnramp, id);
      }
    }

    method FailPermanent(key: Key) returns (failure: Option<Error>)
      modifies this
      ensures Ran(old(Tables()), Tables(), failure, Ledger.FailPermanent(old(Tables()), key))
    {
      hide SlotFree, EventsOf, Finish;
      var saved, id := Tables(), key.order;
      if key !in intents || id !in orders {
        return Some(NotFound);
      }
      if orders[id].status != StellarProcessing {
        return Some(InvalidState);
      }
      intents := intents[key := intents[key].(status := Failed)];
      SameSlots(saved, Tables(), id);
      var ok := Advance(id, "stellar.failed", StellarFailed, Some("stellar_permanent_failure"));
      if !ok {
        Restore(saved);
        return Some(UniqueViolation);
      }
      FinishMessages(SettleOnramp, id);
      return None;
    }

    // Expires the orders of due reservations that still await payment.
    method ReleaseExpiredReservations(now: Time, limit: nat, locked: set<OrderId>)
      returns (failure: Option<Error>, released: nat, ghost rows: seq<OrderId>)
      modifies this
      ensures EarliestRows(DueReservations(old(Tables()), now, locked), limit, rows)
      ensures Ran(old(Tables()), Tables(), failure, ReleaseRows(old(Tables()), rows))
      ensures failure.None? ==> released == ReleasedRows(old(Tables()), rows)
    {
      hide ReleaseExpired, DueReservations, EarliestRows;
      var saved := Tables();
      var due := SelectEarliest(DueReservations(saved, now, locked), limit);
      rows := due;
      failure, released := None, 0;
      for i := 0 to |due|
        invariant failure == None && ReleaseRows(saved, due) == ReleaseRows(Tables(), due[i..])
        invariant ReleasedRows(saved, due) == released + ReleasedRows(Tables(), due[i..])
      {
        assert due[i..][1..] == due[i + 1..];
        var pending: bool;
        failure, pending := ReleaseRow(due[i]);
        if failure.Some? {
          Restore(saved);
          return;
        }
        released := released + if pending then 1 else 0;
      }
    }

    method ReleaseRow(id: OrderId) returns (failure: Option<Error>, released: bool)
      modifies this
      ensures match ReleaseExpired(old(Tables()), id)
              case Committed(db) => failure == None && Tables() == db
              case RolledBack(error) => failure == Some(error)
      ensures failure.None? ==> released == AwaitsPayment(old(Tables()), id)
    {
      if id !in orders || id !in reservations {
        return Some(NotFound), false;
      }
      if orders[id].status != PaymentPending {
        return None, false;
      }
      CloseReservation(id, Released);
      var ok := Advance(id, "order.expired", Expired, orders[id].failure);
      if !ok {
        return Some(UniqueViolation), false;
      }
      return None, true;
    }

    // ---------------------------------------------------------------- off-ramp

    method CreateOfframp(request: OfframpRequest) returns (failure: Option<Error>)
      modifies this
      ensures Ran(old(Tables()), Tables(), failure, Ledger.CreateOfframp(old(Tables()), request))
    {
      hide Ledger.CreateOfframp;
      var saved := Tables();
      failure := CreateOfframpBody(request);
      if failure.Some? {
        Restore(saved);
      }
    }

    method CreateOfframpBody(request: OfframpRequest) returns (failure: Option<Error>)
      modifies this
      ensures Wrote(Tables(), failure, Ledger.CreateOfframp(old(Tables()), request))
    {
      hide SlotFree, EventsOf;
      var id := request.id;
      if id in orders {
        return Some(UniqueViolation);
      }
      orders := orders[id := OrderRow(Offramp, AssetPending, 2, request.fiat, request.stroops, KXLM,
                                      request.assetIssuer, Some(request.depositAccount), Some(request.memo),
                                      Some(request.expiresAt), None)];
      SameSlots(old(Tables()), Tables(), id);
      var ok := AppendTwo(id, Event(1, "order.created", None, Created),
                          Event(2, "deposit.instructions_issued", Some(Created), AssetPending));
      if !ok || request.key in idempotency {
        return Some(UniqueViolation);
      }
      idempotency := idempotency[request.key := Binding(request.requestHash, id)];
      return None;
    }

    method AppendTwo(id: OrderId, first: Event, second: Event) returns (ok: bool)
      requires first.version != second.version
      modifies `events
      ensures ok <==> SlotFree(old(Tables()), id, first.version) && SlotFree(old(Tables()), id, second.version)
      ensures ok ==> events == old(events)[id := EventsOf(old(Tables()), id) + [first, second]]
    {
      hide SlotFree, EventsOf;
      ghost var saved := Tables();
      ok := AppendEvent(id, first.version, first.kind, first.previous, first.next);
      if ok {
        AppendedSlot(saved, Tables(), id, first, second);
        ok := AppendEvent(id, second.version, second.kind, second.previous, second.next);
      }
    }

    method ExpirePendingDeposits(now: Time, limit: int, locked: set<OrderId>)
      returns (failure: Option<Error>, expired: nat, ghost rows: seq<OrderId>)
      modifies this
      ensures limit <= 0 ==> rows == []
      ensures limit > 0 ==> EarliestRows(DueDeposits(old(Tables()), now, locked), limit, rows)
      ensures Ran(old(Tables()), Tables(), failure, ExpireRows(old(Tables()), rows))
      ensures failure.None? ==> expired == |rows|
    {
      hide ExpireDeposit, DueDeposits, EarliestRows;
      var saved := Tables();
      failure, expired, rows := None, 0, [];
      if limit <= 0 {
        return;
      }
      var due := SelectEarliest(DueDeposits(saved, now, locked), limit);
      rows := due;
      for i := 0 to |due|
        invariant failure == None && ExpireRows(saved, due) == ExpireRows(Tables(), due[i..])
        invariant expired == i
      {
        assert due[i..][1..] == due[i + 1..];
        failure := ExpireRow(due[i]);
        if failure.Some? {
          Restore(saved);
          return;
        }
        expired := expired + 1;
      }
    }

    method ExpireRow(id: OrderId) returns (failure: Option<Error>)
      modifies `orders, `events
      ensures match ExpireDeposit(old(Tables()), id)
              case Committed(db) => failure == None && Tables() == db
              case RolledBack(error) => failure == Some(error)
    {
      if id !in orders || orders[id].status != AssetPending {
        return Some(InvalidState);
      }
      var ok := Advance(id, "order.expired", Expired, orders[id].failure);
      return if ok then None else Some(UniqueViolation);
    }

    method RecordAssetReceived(id: OrderId, payment: Payment, now: Time) returns (failure: Option<Error>)
      modifies this
      ensures Ran(old(Tables()), Tables(), failure, Ledger.RecordAssetReceived(old(Tables()), id, payment, now))
    {
      hide SlotFree, EventsOf, StartRetirement, HashTaken, DepositIntentTaken;
      if id !in orders {
        return Some(NotFound);
      }
      var row := orders[id];
      if row.status in {AssetReceived, RetirementProcessing, WithdrawalProcessing, Completed} {
        return None;
      }
      if row.status != AssetPending {
        return Some(InvalidState);
      }
      if !ValidDeposit(row, payment) {
        return Some(InvalidDeposit);
      }
      if HashTaken(Tables(), Key(id, Deposit), payment.hash) || DepositIntentTaken(Tables(), payment.hash)
         || Key(id, Deposit) in intents {
        return Some(UniqueViolation);
      }
      var saved := Tables();
      var ok := TakeDeposit(id, payment, now);
      if !ok {
        Restore(saved);
        return Some(UniqueViolation);
      }
      return None;
    }

    // The writes of a received deposit, up to the first that fails.
    method TakeDeposit(id: OrderId, payment: Payment, now: Time) returns (ok: bool)
      requires id in orders
      modifies this
      ensures ok <==> && Key(id, Retirement) !in old(intents)
                      && SlotFree(old(Tables()), id, old(orders)[id].version + 1)
                      && SlotFree(old(Tables()), id, old(orders)[id].version + 2)
      ensures ok ==> Tables() == StartRetirement(old(Tables()), id, payment, now)
    {
      hide SlotFree, EventsOf, Move;
      ghost var saved := Tables();
      var row := orders[id];
      intents := intents[Key(id, Deposit) := Intent(row.stroops, Confirmed, Some(payment.hash), payment.ledgerAt, 1)];
      SameSlots(saved, Tables(), id);
      MoveFrame(saved, Tables(), id, "asset.received", AssetReceived, row.failure);
      ghost var moved := Move(saved, id, "asset.received", AssetReceived, row.failure);
      var received := Advance(id, "asset.received", AssetReceived, row.failure);
      if !received || Key(id, Retirement) in intents {
        return false;
      }
      intents := intents[Key(id, Retirement) := Intent(row.stroops, Pending, None, None, 0)];
      Enqueue(RetireOfframp, id, now);
      MoveSlot(saved, id, "asset.received", AssetReceived, row.failure, row.version + 2);
      SameSlots(moved, Tables(), id);
      MoveFrame(moved, Tables(), id, "retirement.requested", RetirementProcessing, row.failure);
      ok := Advance(id, "retirement.requested", RetirementProcessing, row.failure);
    }

    method RecordAssetInvalid(id: OrderId) returns (failure: Option<Error>)
      modifies this
      ensures Ran(old(Tables()), Tables(), failure, Ledger.RecordAssetInvalid(old(Tables()), id))
    {
      var saved := Tables();
      if id !in orders || orders[id].status != AssetPending {
        return Some(InvalidState);
      }
      var ok := Advance(id, "asset.invalid", AssetInvalid, Some("deposit_mismatch"));
      if !ok {
        Restore(saved);
        return Some(UniqueViolation);
      }
      return None;
    }

    // Claims a pending retirement with one guarded update.
    method SaveRetirementHash(key: Key, hash: Hash) returns (failure: Option<Error>)
      modifies `intents
      ensures Ran(old(Tables()), Tables(), failure, Ledger.SaveRetirementHash(old(Tables()), key, hash))
    {
      if key in intents && key.purpose == Retirement && intents[key].status == Pending
         && intents[key].hash.None? && intents[key].ledgerAt.None? {
        if HashTaken(Tables(), key, hash) {
          return Some(UniqueViolation);
        }
        var intent := intents[key];
        intents := intents[key := intent.(hash := Some(hash), status := Submitted, attempts := intent.attempts + 1)];
        return None;
      }
      return Some(HashAlreadySaved);
    }

    method ResetRetirementHash(key: Key, hash: Hash) returns (failure: Option<Error>)
      modifies `intents
      ensures Ran(old(Tables()), Tables(), failure, Ledger.ResetRetirementHash(old(Tables()), key, hash))
    {
      if key in intents && key.purpose == Retirement && intents[key].status == Submitted
         && intents[key].hash == Some(hash) && intents[key].ledgerAt.None? {
        intents := intents[key := intents[key].(hash := None, status := Pending)];
        return None;
      }
      return Some(InvalidState);
    }

    // Requeues exhausted retirement jobs and counts them.
    method RequeueUnsubmittedRetirements(now: Time, maxAttempts: int) returns (failure: Option<Error>, requeued: nat)
      modifies `outbox
      ensures Ran(old(Tables()), Tables(), failure, RequeueRetirements(old(Tables()), now, maxAttempts))
      ensures failure.None? ==>
                requeued == RequeueableRows(old(Tables()), old(outbox), now, maxAttempts)
    {
      if maxAttempts <= 0 {
        return Some(InvalidState), 0;
      }
      hide Requeueable;
      var saved := Tables();
      ghost var expected := RequeueAll(saved, outbox, now, maxAttempts);
      requeued := 0;
      for i := 0 to |outbox|
        invariant |outbox| == |saved.outbox|
        invariant forall j :: 0 <= j < i ==> outbox[j] == expected[j]
        invariant forall j :: i <= j < |outbox| ==> outbox[j] == saved.outbox[j]
        invariant requeued == RequeueableRows(saved, saved.outbox[..i], now, maxAttempts)
      {
        assert saved.outbox[..i + 1][..i] == saved.outbox[..i];
        if Requeueable(saved, outbox[i], now, maxAttempts) {
          outbox := outbox[i := outbox[i].(attempts := 0, availableAt := now, lease := None)];
          requeued := requeued + 1;
        }
      }
      assert saved.outbox[..|outbox|] == saved.outbox;
      assert outbox == expected;
      return None, requeued;
    }

    method SimulateRetirement(key: Key, now: Time) returns (failure: Option<Error>)
      modifies this
      ensures Ran(old(Tables()), Tables(), failure, Ledger.SimulateRetirement(old(Tables()), key, now))
    {
      hide SlotFree, EventsOf, Finish, Move;
      var saved := Tables();
      if key !in intents || key.purpose != Retirement || key.order !in orders {
        return Some(NotFound);
      }
      var intent, row := intents[key], orders[key.order];
      if intent.status == Simulated {
        return if intent.hash.None? && intent.ledgerAt.None? && row.status in {WithdrawalProcessing, Completed}
               then None else Some(InvalidState);
      }
      if intent.status != Pending || intent.hash.Some? || intent.ledgerAt.Some? {
        return Some(AfterSubmission);
      }
      if row.direction != Offramp || row.status != RetirementProcessing {
        return Some(InvalidState);
      }
      failure := Withdraw(key, "retirement.simulated", now, intent.(status := Simulated));
    }

    // The end the two kinds of retirement share.
    method Withdraw(key: Key, kind: string, now: Time, intent: Intent) returns (failure: Option<Error>)
      requires key in intents && key.order in orders
      modifies this
      ensures SlotFree(old(Tables()), key.order, old(orders)[key.order].version + 1) ==>
                failure == None
                && Tables() == ToWithdrawal(old(Tables()), key.order, kind, now).(intents := old(intents)[key := intent])
      ensures !SlotFree(old(Tables()), key.order, old(orders)[key.order].version + 1) ==>
                failure == Some(UniqueViolation) && Tables() == old(Tables())
    {
      hide SlotFree, EventsOf, Finish;
      var saved, id := Tables(), key.order;
      intents := intents[key := intent];
      SameSlots(saved, Tables(), id);
      var ok := Advance(id, kind, WithdrawalProcessing, orders[id].failure);
      if !ok {
        Restore(saved);
        return Some(UniqueViolation);
      }
      FinishMessages(RetireOfframp, id);
      Enqueue(SimulatePayout, id, now);
      return None;
    }

    method ConfirmRetirement(key: Key, hash: Hash, ledgerAt: Time, now: Time) returns (failure: Option<Error>)
      modifies this
      ensures Ran(old(Tables()), Tables(), failure, Ledger.ConfirmRetirement(old(Tables()), key, hash, ledgerAt, now))
    {
      hide SlotFree, EventsOf, Finish, Move;
      if key !in intents {
        return Some(NotFound);
      }
      var intent := intents[key];
      if intent.status == Confirmed {
        return None;
      }
      if intent.hash != Some(hash) {
        return Some(HashMismatch);
      }
      if key.order !in orders {
        return Some(NotFound);
      }
      if orders[key.order].status != RetirementProcessing {
        return Some(InvalidState);
      }
      failure := Withdraw(key, "retirement.confirmed", now, intent.(status := Confirmed, ledgerAt := Some(ledgerAt)));
    }

    method FailRetirement(key: Key) returns (failure: Option<Error>)
      modifies this
      ensures Ran(old(Tables()), Tables(), failure, Ledger.FailRetirement(old(Tables()), key))
    {
      hide SlotFree, EventsOf, Finish;
      var saved, id := Tables(), key.order;
      if key !in intents || id !in orders {
        return Some(NotFound);
      }
      if orders[id].status != RetirementProcessing {
        return Some(InvalidState);
      }
      intents := intents[key := intents[key].(status := Failed)];
      SameSlots(saved, Tables(), id);
      var ok := Advance(id, "retirement.failed", RetirementFailed, Some("retirement_failed"));
      if !ok {
        Restore(saved);
        return Some(UniqueViolation);
      }
      FinishMessages(RetireOfframp, id);
      return None;
    }

    method CompleteSandboxPayout(id: OrderId, index: nat) returns (failure: Option<Error>)
      modifies this
      ensures Ran(old(Tables()), Tables(), failure, CompletePayout(old(Tables()), id, index))
    {
      hide CompletePayout;
      var saved := Tables();
      failure := CompleteSandboxPayoutBody(id, index);
      if failure.Some? {
        Restore(saved);
      }
    }

    method CompleteSandboxPayoutBody(id: OrderId, index: nat) returns (failure: Option<Error>)
      modifies this
      ensures Wrote(Tables(), failure, CompletePayout(old(Tables()), id, index))
    {
      hide SlotFree, EventsOf, PayOut;
      if id !in orders {
        return Some(NotFound);
      }
      if orders[id].status !in {WithdrawalProcessing, Completed} {
        return Some(InvalidState);
      }
      if orders[id].status == WithdrawalProcessing && Key(id, Retirement) !in intents {
        return Some(NotFound);
      }
      var ok := PayAndComplete(id, index);
      return if ok then None else Some(UniqueViolation);
    }

    // The writes of a payout, up to the first that fails.
    method PayAndComplete(id: OrderId, index: nat) returns (ok: bool)
      requires id in orders
      modifies this
      ensures ok <==> (old(orders)[id].status == WithdrawalProcessing ==> SlotFree(old(Tables()), id, old(orders)[id].version + 1))
      ensures ok ==> Tables() == PayOut(old(Tables()), id, index)
    {
      hide SlotFree, EventsOf, Move, FinishMessage;
      ghost var saved := Tables();
      var row := orders[id];
      AddPayout(id, row.fiat);
      FinishPayoutMessage(index);
      ok := true;
      if row.status == WithdrawalProcessing {
        SameSlots(saved, Tables(), id);
        MoveFrame(saved, Tables(), id, "payout.simulated", Completed, row.failure);
        ok := Advance(id, "payout.simulated", Completed, row.failure);
      }
    }

    // One payout per order: a second one is not added.
    method AddPayout(id: OrderId, fiat: int)
      modifies `payouts
      ensures payouts == if id in old(payouts) then old(payouts) else old(payouts)[id := Payout(fiat, PayoutReference(id))]
    {
      if id !in payouts {
        payouts := payouts[id := Payout(fiat, PayoutReference(id))];
      }
    }

    method FinishPayoutMessage(index: nat)
      modifies `outbox
      ensures outbox == FinishMessage(old(outbox), index, SimulatePayout)
    {
      if index < |outbox| && outbox[index].topic == SimulatePayout && !outbox[index].processed {
        outbox := outbox[index := Processed(outbox[index])];
      }
    }
  }
}
