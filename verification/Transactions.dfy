// Every repository transaction keeps the invariant and only ever extends the
// history of the tables.
module Transactions {
  import opened Prelude
  import opened Orders
  import opened Ledger
  import opened Invariant

  predicate Settled(intent: Intent) {
    intent.status in {Confirmed, Failed, Simulated}
  }

  predicate SameTerms(a: OrderRow, b: OrderRow) {
    && a.direction == b.direction && a.fiat == b.fiat && a.stroops == b.stroops
    && a.assetCode == b.assetCode && a.assetIssuer == b.assetIssuer
    && a.source == b.source && a.memo == b.memo && a.expiresAt == b.expiresAt
  }

  predicate IntentKept(a: Option<Intent>, b: Option<Intent>, strict: bool) {
    a.Some? ==> b.Some? && (strict && Settled(a.value) ==> b == a)
  }

  // What no transaction takes back about an order: its log only grows, its
  // terms never change, and settled Stellar transactions, closed reservations
  // and payouts stay as they are.
  predicate ViewExtends(a: View, b: View, strict: bool) {
    && a.log <= b.log
    && (a.row.Some? ==> b.row.Some? && SameTerms(a.row.value, b.row.value))
    && (a.row.Some? && a.row.value.status == Completed ==> b.row == a.row)
    && IntentKept(a.transfer, b.transfer, strict) && IntentKept(a.deposit, b.deposit, true) && IntentKept(a.retirement, b.retirement, true)
    && (a.reservation.Some? ==> b.reservation.Some? && (a.reservation.value.status != Reserved ==> b.reservation == a.reservation))
    && (a.payout.Some? ==> b.payout == a.payout)
  }

  // Idempotency bindings and checkouts are never rebound.
  ghost predicate BindingsExtend(db: Db, next: Db) {
    && (forall key :: key in db.idempotency ==> key in next.idempotency && next.idempotency[key] == db.idempotency[key])
    && (forall p :: p in db.checkouts ==> p in next.checkouts && next.checkouts[p] == db.checkouts[p])
  }

  ghost predicate Extends(db: Db, next: Db, strict: bool) {
    && (forall id: OrderId :: ViewExtends(ViewOf(db, id), ViewOf(next, id), strict))
    && BindingsExtend(db, next)
  }

  lemma ExtendsTransitive(a: Db, b: Db, c: Db, strict: bool)
    requires Extends(a, b, strict) && Extends(b, c, strict)
    ensures Extends(a, c, strict)
  {
    hide ViewOf;
    forall id: OrderId
      ensures ViewExtends(ViewOf(a, id), ViewOf(c, id), strict)
    {
      assert ViewExtends(ViewOf(a, id), ViewOf(b, id), strict) && ViewExtends(ViewOf(b, id), ViewOf(c, id), strict);
    }
  }

  lemma SameView(view: View, strict: bool)
    ensures ViewExtends(view, view, strict)
  {
  }

  ghost predicate Kept(db: Db, next: Db, strict: bool) {
    Inv(next, strict) && Extends(db, next, strict)
  }

  // ---------------------------------------------------------------- framing

  lemma At(db: Db, id: OrderId, strict: bool)
    requires Inv(db, strict)
    ensures ViewOk(ViewOf(db, id), strict)
  {
    hide ViewOk, TreasuryOk, HashesUnique, BindingsOk, CheckoutsOk, OutboxOk;
  }

  // Nothing but one order's view changed.
  ghost predicate OnlyTouches(db: Db, next: Db, id: OrderId) {
    forall other: OrderId :: other != id ==> ViewOf(next, other) == ViewOf(db, other)
  }

  // Messages keep their topic and order, new ones name an order of their
  // topic, and a payout job closes only as its order completes.
  ghost predicate OutboxGrows(db: Db, next: Db) {
    && |db.outbox| <= |next.outbox|
    && (forall i :: 0 <= i < |db.outbox| ==>
          && next.outbox[i].topic == db.outbox[i].topic && next.outbox[i].order == db.outbox[i].order
          && (next.outbox[i].topic == SimulatePayout && next.outbox[i].processed && !db.outbox[i].processed ==>
                next.outbox[i].order in next.orders && next.orders[next.outbox[i].order].status == Completed))
    && (forall i :: |db.outbox| <= i < |next.outbox| ==> Belongs(next, next.outbox[i]))
  }

  // At most one transaction took a new hash, and it was not taken.
  ghost predicate NewHash(db: Db, next: Db, key: Key) {
    && (forall k :: k in next.intents && k != key && next.intents[k].hash.Some? ==>
          k in db.intents && next.intents[k].hash == db.intents[k].hash)
    && (key in next.intents && next.intents[key].hash.Some? ==>
          || (key in db.intents && next.intents[key].hash == db.intents[key].hash)
          || !HashTaken(db, key, next.intents[key].hash.value))
  }

  lemma TreasuryKept(db: Db, next: Db, strict: bool)
    requires Inv(db, strict) && db.treasury == next.treasury && db.reservations == next.reservations
    ensures TreasuryOk(next)
  {
    hide ViewOk;
  }

  lemma OrdersKept(db: Db, next: Db, id: OrderId, strict: bool)
    requires OnlyTouches(db, next, id) && ViewExtends(ViewOf(db, id), ViewOf(next, id), strict)
    ensures forall other :: other in db.orders ==>
              && other in next.orders && SameTerms(db.orders[other], next.orders[other])
              && (db.orders[other].status == Completed ==> next.orders[other] == db.orders[other])
  {
    forall other | other in db.orders
      ensures other in next.orders && SameTerms(db.orders[other], next.orders[other])
      ensures db.orders[other].status == Completed ==> next.orders[other] == db.orders[other]
    {
      assert other != id ==> ViewOf(next, other) == ViewOf(db, other);
      assert ViewOf(db, other).row == Some(db.orders[other]);
    }
  }

  lemma BindingsKept(db: Db, next: Db, id: OrderId, strict: bool)
    requires Inv(db, strict) && OnlyTouches(db, next, id) && ViewExtends(ViewOf(db, id), ViewOf(next, id), strict)
    requires OutboxGrows(db, next)
    requires next.idempotency == db.idempotency && next.checkouts == db.checkouts
    ensures BindingsOk(next) && CheckoutsOk(next) && OutboxOk(next)
  {
    hide ViewOk, ViewExtends, ViewOf, SumReserved, HashesUnique, OnlyTouches;
    OrdersKept(db, next, id, strict);
  }

  lemma ViewsKept(db: Db, next: Db, id: OrderId, strict: bool)
    requires Inv(db, strict) && OnlyTouches(db, next, id)
    requires ViewOk(ViewOf(next, id), strict) && ViewExtends(ViewOf(db, id), ViewOf(next, id), strict)
    ensures forall other: OrderId :: ViewOk(ViewOf(next, other), strict) && ViewExtends(ViewOf(db, other), ViewOf(next, other), strict)
  {
    hide ViewOk, TreasuryOk, HashesUnique, BindingsOk, CheckoutsOk, OutboxOk;
    forall other: OrderId
      ensures ViewOk(ViewOf(next, other), strict) && ViewExtends(ViewOf(db, other), ViewOf(next, other), strict)
    {
      if other != id {
        assert ViewOf(next, other) == ViewOf(db, other);
      }
    }
  }

  // A transaction on one order keeps the invariant when it leaves that order's
  // view, the treasury and the unique keys sound.
  lemma Close(db: Db, next: Db, id: OrderId, key: Key, strict: bool)
    requires Inv(db, strict) && OnlyTouches(db, next, id)
    requires ViewOk(ViewOf(next, id), strict) && ViewExtends(ViewOf(db, id), ViewOf(next, id), strict)
    requires BindingsExtend(db, next) && BindingsOk(next) && CheckoutsOk(next) && OutboxOk(next)
    requires NewHash(db, next, key) && TreasuryOk(next)
    ensures Kept(db, next, strict)
  {
    hide ViewOk, ViewExtends, ViewOf, SumReserved, TreasuryOk, BindingsOk, CheckoutsOk, OutboxOk, BindingsExtend, OnlyTouches;
    ViewsKept(db, next, id, strict);
  }

  // A move the machine allows carries a sound log to a sound log.
  lemma MoveReplays(db: Db, id: OrderId, kind: string, next: Status, failure: Option<string>)
    requires id in db.orders
    requires Replay(EventsOf(db, id)) == Some(Aggregate(db.orders[id].status, db.orders[id].version))
    requires AllowedTransition(db.orders[id].status, next)
    ensures var moved := Move(db, id, kind, next, failure);
            Replay(EventsOf(moved, id)) == Some(Aggregate(moved.orders[id].status, moved.orders[id].version))
  {
    ReplayAppend(EventsOf(db, id), Event(db.orders[id].version + 1, kind, Some(db.orders[id].status), next));
  }

  lemma RowReplays(db: Db, id: OrderId, strict: bool)
    requires ViewOk(ViewOf(db, id), strict) && id in db.orders
    ensures Replay(EventsOf(db, id)) == Some(Aggregate(db.orders[id].status, db.orders[id].version))
  {
    hide Replay, OnrampOk, OfframpOk;
  }

  // Two moves the machine allows, one after the other.
  lemma MoveTwiceReplays(db: Db, id: OrderId, kind1: string, next1: Status, kind2: string, next2: Status, failure: Option<string>)
    requires id in db.orders
    requires Replay(EventsOf(db, id)) == Some(Aggregate(db.orders[id].status, db.orders[id].version))
    requires AllowedTransition(db.orders[id].status, next1) && AllowedTransition(next1, next2)
    ensures var moved := Move(Move(db, id, kind1, next1, failure), id, kind2, next2, failure);
            && id in moved.orders
            && moved == db.(orders := moved.orders, events := moved.events)
            && moved.orders[id] == db.orders[id].(status := next2, version := db.orders[id].version + 2, failure := failure)
            && EventsOf(db, id) <= EventsOf(moved, id)
            && Replay(EventsOf(moved, id)) == Some(Aggregate(next2, db.orders[id].version + 2))
  {
    hide Replay, AllowedTransition;
    MoveReplays(db, id, kind1, next1, failure);
    MoveReplays(Move(db, id, kind1, next1, failure), id, kind2, next2, failure);
  }

  // The unique key (order, version) never stands in the way of the next event.
  lemma SlotsFree(db: Db, id: OrderId, strict: bool)
    requires Inv(db, strict)
    ensures id !in db.orders ==> forall v: nat :: SlotFree(db, id, v)
    ensures id in db.orders ==> forall v: nat :: v > db.orders[id].version ==> SlotFree(db, id, v)
  {
    At(db, id, strict);
    ReplayIffChained(EventsOf(db, id));
  }

  // ---------------------------------------------------------------- on-ramp

  lemma ReserveAndCreateView(db: Db, request: OnrampRequest, observed: int, buffer: int, strict: bool)
    requires ViewOk(ViewOf(db, request.id), strict) && ReserveAndCreate(db, request, observed, buffer).Committed?
    ensures ViewOk(ViewOf(ReserveAndCreate(db, request, observed, buffer).db, request.id), strict)
    ensures ViewExtends(ViewOf(db, request.id), ViewOf(ReserveAndCreate(db, request, observed, buffer).db, request.id), strict)
  {
    var next := ReserveAndCreate(db, request, observed, buffer).db;
    assert EventsOf(next, request.id) == [Event(1, "order.created", None, Created)];
  }

  lemma NewBinding(db: Db, next: Db, key: IdemKey, id: OrderId, strict: bool)
    requires Inv(db, strict) && key !in db.idempotency && id !in db.orders
    requires next.idempotency.Keys == db.idempotency.Keys + {key}
    requires forall k :: k in db.idempotency ==> next.idempotency[k] == db.idempotency[k]
    requires next.idempotency[key].order == id && next.checkouts == db.checkouts
    requires id in next.orders && next.orders[id].direction == key.operation
    requires OnlyTouches(db, next, id) && ViewExtends(ViewOf(db, id), ViewOf(next, id), strict) && next.outbox == db.outbox
    ensures BindingsOk(next) && CheckoutsOk(next) && OutboxOk(next)
  {
    hide ViewOk, ViewExtends, ViewOf, SumReserved, HashesUnique, OnlyTouches;
    OrdersKept(db, next, id, strict);
  }

  lemma ReserveAndCreateKept(db: Db, request: OnrampRequest, observed: int, buffer: int, strict: bool)
    requires Inv(db, strict) && request.key.operation == Onramp
    requires ReserveAndCreate(db, request, observed, buffer).Committed?
    ensures Kept(db, ReserveAndCreate(db, request, observed, buffer).db, strict)
  {
    hide ViewOk, ViewExtends, Extends, TreasuryOk, Inv, BindingsOk, CheckoutsOk, OutboxOk;
    var next := ReserveAndCreate(db, request, observed, buffer).db;
    At(db, request.id, strict);
    ReserveAndCreateView(db, request, observed, buffer, strict);
    Admitted(db, request, observed, buffer, strict);
    NewBinding(db, next, request.key, request.id, strict);
    Close(db, next, request.id, Key(request.id, Transfer), strict);
  }

  // An admitted order finds its fee covered, and the row still covers the
  // operating buffer after it.
  lemma Admitted(db: Db, request: OnrampRequest, observed: int, buffer: int, strict: bool)
    requires Inv(db, strict) && ReserveAndCreate(db, request, observed, buffer).Committed?
    ensures var t := ReserveAndCreate(db, request, observed, buffer).db.treasury;
            && t.Some? && t.value.observed == observed
            && t.value.observed - t.value.reserved - t.value.buffer >= 0
    ensures TreasuryOk(ReserveAndCreate(db, request, observed, buffer).db)
  {
    hide ViewOk;
    var next := ReserveAndCreate(db, request, observed, buffer).db;
    SumReservedUpdate(db.reservations, request.id, next.reservations[request.id]);
  }

  lemma AttachCheckoutView(db: Db, id: OrderId, provider: string, requestId: Option<string>, channel: string, strict: bool)
    requires ViewOk(ViewOf(db, id), strict) && AttachCheckout(db, id, provider, requestId, channel).Committed?
    ensures ViewOk(ViewOf(AttachCheckout(db, id, provider, requestId, channel).db, id), strict)
    ensures ViewExtends(ViewOf(db, id), ViewOf(AttachCheckout(db, id, provider, requestId, channel).db, id), strict)
  {
    MoveReplays(db, id, "checkout.created", PaymentPending, db.orders[id].failure);
  }

  lemma NewCheckout(db: Db, next: Db, provider: string, id: OrderId, strict: bool)
    requires Inv(db, strict) && next.idempotency == db.idempotency
    requires provider !in db.checkouts && next.checkouts.Keys == db.checkouts.Keys + {provider}
    requires forall p :: p in db.checkouts ==> next.checkouts[p] == db.checkouts[p]
    requires OnlyTouches(db, next, id) && ViewExtends(ViewOf(db, id), ViewOf(next, id), strict) && next.outbox == db.outbox
    requires next.checkouts[provider].order in db.orders
    requires next.checkouts[provider].amount == db.orders[next.checkouts[provider].order].fiat
    ensures BindingsOk(next) && CheckoutsOk(next) && OutboxOk(next)
  {
    hide ViewOk, ViewExtends, ViewOf, SumReserved, HashesUnique, OnlyTouches;
    OrdersKept(db, next, id, strict);
  }

  lemma AttachCheckoutKept(db: Db, id: OrderId, provider: string, requestId: Option<string>, channel: string, strict: bool)
    requires Inv(db, strict) && AttachCheckout(db, id, provider, requestId, channel).Committed?
    ensures Kept(db, AttachCheckout(db, id, provider, requestId, channel).db, strict)
  {
    hide ViewOk, ViewExtends, Extends, TreasuryOk, Inv, BindingsOk, CheckoutsOk, OutboxOk;
    var next := AttachCheckout(db, id, provider, requestId, channel).db;
    At(db, id, strict);
    AttachCheckoutView(db, id, provider, requestId, channel, strict);
    TreasuryKept(db, next, strict);
    NewCheckout(db, next, provider, id, strict);
    Close(db, next, id, Key(id, Transfer), strict);
  }

  // The two ways a reservation is given back before payment.
  predicate Releasable(db: Db, id: OrderId, next: Status) {
    && id in db.orders && db.orders[id].direction == Onramp && id in db.reservations
    && ((db.orders[id].status == Created && next == PaymentFailed)
        || (db.orders[id].status == PaymentPending && next == Expired))
  }

  lemma ReleaseView(db: Db, id: OrderId, kind: string, next: Status, failure: Option<string>, strict: bool)
    requires ViewOk(ViewOf(db, id), strict) && Releasable(db, id, next)
    ensures ViewOk(ViewOf(Release(Move(db, id, kind, next, failure), id), id), strict)
    ensures ViewExtends(ViewOf(db, id), ViewOf(Release(Move(db, id, kind, next, failure), id), id), strict)
  {
    MoveReplays(db, id, kind, next, failure);
  }

  lemma ReleaseTreasury(db: Db, id: OrderId, next: Db, strict: bool)
    requires Inv(db, strict) && id in db.reservations && db.reservations[id].status == Reserved
    requires next.treasury == GiveBack(db.treasury, db.reservations[id].amount)
    requires next.reservations.Keys == db.reservations.Keys
    requires next.reservations == db.reservations[id := next.reservations[id]]
    requires next.reservations[id].status != Reserved
    requires db.reservations[id].amount >= 0
    ensures TreasuryOk(next)
  {
    hide ViewOk;
    SumReservedUpdate(db.reservations, id, next.reservations[id]);
  }

  // An on-ramp order's reservation, read off its view.
  lemma ReservationOf(db: Db, id: OrderId, strict: bool)
    requires Inv(db, strict) && id in db.orders && db.orders[id].direction == Onramp
    ensures id in db.reservations && db.reservations[id].amount == KXLM_ISSUE_FEE_RESERVE
    ensures db.reservations[id].status == ExpectedReservation(db.orders[id].status)
  {
    hide Replay, TreasuryOk, HashesUnique, BindingsOk, CheckoutsOk, OutboxOk;
    At(db, id, strict);
  }

  lemma ReleaseKept(db: Db, id: OrderId, kind: string, next: Status, failure: Option<string>, strict: bool)
    requires Inv(db, strict) && Releasable(db, id, next)
    ensures Kept(db, Release(Move(db, id, kind, next, failure), id), strict)
  {
    hide ViewOk, ViewExtends, Extends, TreasuryOk, Inv, BindingsOk, CheckoutsOk, OutboxOk, HashTaken, Open;
    var released := Release(Move(db, id, kind, next, failure), id);
    At(db, id, strict);
    ReservationOf(db, id, strict);
    ReleaseView(db, id, kind, next, failure, strict);
    ReleaseTreasury(db, id, released, strict);
    BindingsKept(db, released, id, strict);
    Close(db, released, id, Key(id, Transfer), strict);
  }

  // Only on-ramp orders are created or await payment.
  lemma AwaitingIsOnramp(db: Db, id: OrderId, strict: bool)
    requires Inv(db, strict) && id in db.orders && db.orders[id].status in {Created, PaymentPending}
    ensures db.orders[id].direction == Onramp
  {
    hide Replay, TreasuryOk, HashesUnique, BindingsOk, CheckoutsOk, OutboxOk;
    At(db, id, strict);
  }

  lemma FailCheckoutKept(db: Db, id: OrderId, strict: bool)
    requires Inv(db, strict) && FailCheckout(db, id).Committed?
    ensures Kept(db, FailCheckout(db, id).db, strict)
  {
    hide Inv, Extends, Move, Release;
    AwaitingIsOnramp(db, id, strict);
    ReleaseKept(db, id, "checkout.failed", PaymentFailed, Some("checkout_failed"), strict);
  }

  lemma ReleaseExpiredKept(db: Db, id: OrderId, strict: bool)
    requires Inv(db, strict) && ReleaseExpired(db, id).Committed?
    ensures Kept(db, ReleaseExpired(db, id).db, strict)
  {
    hide Inv, Extends, Move, Release;
    if db.orders[id].status == PaymentPending {
      AwaitingIsOnramp(db, id, strict);
      ReleaseKept(db, id, "order.expired", Expired, db.orders[id].failure, strict);
    } else {
      Unchanged(db, strict);
    }
  }

  lemma FailureNoted(view: View, failure: Option<string>, strict: bool)
    requires ViewOk(view, strict) && view.row.Some? && view.row.value.status == Created
    ensures var noted := view.(row := Some(view.row.value.(failure := failure)));
            ViewOk(noted, strict) && ViewExtends(view, noted, strict)
  {
    hide Replay;
  }

  lemma MarkCheckoutUnknownView(db: Db, id: OrderId, strict: bool)
    requires ViewOk(ViewOf(db, id), strict)
    ensures ViewOk(ViewOf(MarkCheckoutUnknown(db, id).db, id), strict)
    ensures ViewExtends(ViewOf(db, id), ViewOf(MarkCheckoutUnknown(db, id).db, id), strict)
  {
    hide ViewOk, ViewExtends, Open;
    SameView(ViewOf(db, id), strict);
    if id in db.orders && db.orders[id].status == Created {
      FailureNoted(ViewOf(db, id), Some("checkout_unknown"), strict);
      assert ViewOf(MarkCheckoutUnknown(db, id).db, id)
          == ViewOf(db, id).(row := Some(db.orders[id].(failure := Some("checkout_unknown"))));
    }
  }

  lemma MarkCheckoutUnknownTouches(db: Db, id: OrderId)
    ensures OnlyTouches(db, MarkCheckoutUnknown(db, id).db, id)
  {
    hide Open;
  }

  lemma MarkCheckoutUnknownKept(db: Db, id: OrderId, strict: bool)
    requires Inv(db, strict)
    ensures Kept(db, MarkCheckoutUnknown(db, id).db, strict)
  {
    hide ViewOk, ViewOf, ViewExtends, OnlyTouches, Extends, TreasuryOk, Inv, BindingsOk, CheckoutsOk, OutboxOk, HashTaken;
    var next := MarkCheckoutUnknown(db, id).db;
    At(db, id, strict);
    MarkCheckoutUnknownView(db, id, strict);
    MarkCheckoutUnknownTouches(db, id);
    TreasuryKept(db, next, strict);
    BindingsKept(db, next, id, strict);
    Close(db, next, id, Key(id, Transfer), strict);
  }

  // The view of an order whose payment was confirmed.
  function SettlementStarted(view: View, log: seq<Event>): View
    requires view.row.Some?
  {
    var row := view.row.value;
    view.(row := Some(row.(status := StellarProcessing, version := row.version + 2)), log := log,
    transfer := Some(Intent(row.stroops, Pending, None, None, 0)),
    jobs := view.jobs.(settle := view.jobs.settle + 1))
  }

  lemma SettlementStartedOk(view: View, log: seq<Event>, strict: bool)
    requires ViewOk(view, strict) && view.row.Some? && view.row.value.status == PaymentPending
    requires view.log <= log && Replay(log) == Some(Aggregate(StellarProcessing, view.row.value.version + 2))
    ensures view.row.value.direction == Onramp
    ensures ViewOk(SettlementStarted(view, log), strict) && ViewExtends(view, SettlementStarted(view, log), strict)
  {
    hide Replay;
  }

  lemma StartSettlementView(db: Db, id: OrderId, eventId: string, now: Time, strict: bool)
    requires ViewOk(ViewOf(db, id), strict) && id in db.orders && db.orders[id].status == PaymentPending
    ensures db.orders[id].direction == Onramp
    ensures ViewOk(ViewOf(StartSettlement(db, id, eventId, now), id), strict)
    ensures ViewExtends(ViewOf(db, id), ViewOf(StartSettlement(db, id, eventId, now), id), strict)
  {
    hide Open, Replay, ViewOk, ViewExtends, Move;
    var next := StartSettlement(db, id, eventId, now);
    RowReplays(db, id, strict);
    MoveTwiceReplays(db, id, "payment.confirmed", PaymentConfirmed, "stellar.transfer_requested", StellarProcessing, db.orders[id].failure);
    JobsAppend(db.outbox, NewMessage(SettleOnramp, id, now), id);
    SettlementStartedOk(ViewOf(db, id), EventsOf(next, id), strict);
    assert ViewOf(next, id) == SettlementStarted(ViewOf(db, id), EventsOf(next, id));
  }

  lemma StartSettlementTouches(db: Db, id: OrderId, eventId: string, now: Time)
    requires id in db.orders
    ensures OnlyTouches(db, StartSettlement(db, id, eventId, now), id)
  {
    hide Open;
    forall other: OrderId | other != id
      ensures JobsOf(StartSettlement(db, id, eventId, now).outbox, other) == JobsOf(db.outbox, other)
    {
      JobsAppend(db.outbox, NewMessage(SettleOnramp, id, now), other);
    }
  }

  lemma StartSettlementKept(db: Db, id: OrderId, eventId: string, now: Time, strict: bool)
    requires Inv(db, strict) && id in db.orders && db.orders[id].status == PaymentPending
    ensures Kept(db, StartSettlement(db, id, eventId, now), strict)
  {
    hide ViewOk, ViewOf, ViewExtends, OnlyTouches, Extends, TreasuryOk, Inv, BindingsOk, CheckoutsOk, OutboxOk, HashTaken, Open;
    var next := StartSettlement(db, id, eventId, now);
    At(db, id, strict);
    StartSettlementView(db, id, eventId, now, strict);
    TreasuryKept(db, next, strict);
    StartSettlementTouches(db, id, eventId, now);
    BindingsKept(db, next, id, strict);
    NoIntents(db, id, strict);
    Close(db, next, id, Key(id, Transfer), strict);
  }

  // Before it is processed an order has no Stellar transactions.
  lemma NoIntents(db: Db, id: OrderId, strict: bool)
    requires Inv(db, strict) && id in db.orders && db.orders[id].status in {PaymentPending, AssetPending}
    ensures Key(id, Transfer) !in db.intents && Key(id, Deposit) !in db.intents && Key(id, Retirement) !in db.intents
  {
    hide Replay, TreasuryOk, HashesUnique, BindingsOk, CheckoutsOk, OutboxOk;
    At(db, id, strict);
  }

  lemma ConfirmPaymentKept(db: Db, id: OrderId, eventId: string, now: Time, strict: bool)
    requires Inv(db, strict) && ConfirmPayment(db, id, eventId, now).Committed?
    ensures Kept(db, ConfirmPayment(db, id, eventId, now).db, strict)
  {
    hide Inv, Extends, StartSettlement;
    if db.orders[id].status == PaymentPending {
      StartSettlementKept(db, id, eventId, now, strict);
    } else {
      Unchanged(db, strict);
    }
  }

  // ---------------------------------------------------------------- settlement

  predicate BeingSettled(db: Db, key: Key) {
    key.purpose == Transfer && key.order in db.orders && db.orders[key.order].status == StellarProcessing
  }

  // What may be written to a Stellar transaction that is being worked on. The
  // writes of a settlement run are not guarded in the database: they reach a
  // transfer in any state, and are harmless to all but its own progress.
  predicate WorkingCopy(db: Db, key: Key, intent: Intent, strict: bool) {
    && key in db.intents && intent.amount == db.intents[key].amount
    && (key.purpose != Transfer || strict ==>
          && SubmittedOrNot(intent)
          && (BeingSettled(db, key)
              || (key.purpose == Retirement && intent.status != UnknownOutcome
                  && key.order in db.orders && db.orders[key.order].status == RetirementProcessing)))
    && (intent.hash.Some? && intent.hash != db.intents[key].hash ==> !HashTaken(db, key, intent.hash.value))
  }

  lemma WorkView(db: Db, key: Key, intent: Intent, strict: bool)
    requires ViewOk(ViewOf(db, key.order), strict) && WorkingCopy(db, key, intent, strict)
    ensures ViewOk(ViewOf(db.(intents := db.intents[key := intent]), key.order), strict)
    ensures ViewExtends(ViewOf(db, key.order), ViewOf(db.(intents := db.intents[key := intent]), key.order), strict)
  {
    hide Replay;
  }

  lemma WorkKept(db: Db, key: Key, intent: Intent, strict: bool)
    requires Inv(db, strict) && WorkingCopy(db, key, intent, strict)
    ensures Kept(db, db.(intents := db.intents[key := intent]), strict)
  {
    hide ViewOk, ViewExtends, Extends, TreasuryOk, Inv, BindingsOk, CheckoutsOk, OutboxOk;
    var next := db.(intents := db.intents[key := intent]);
    At(db, key.order, strict);
    WorkView(db, key, intent, strict);
    TreasuryKept(db, next, strict);
    BindingsKept(db, next, key.order, strict);
    Close(db, next, key.order, key, strict);
  }

  // While an order is processed its own intent is open, and no other purpose's is.
  lemma ProcessingIntent(db: Db, key: Key, strict: bool)
    requires Inv(db, strict) && key in db.intents
    ensures key.order in db.orders
    ensures db.orders[key.order].status == StellarProcessing ==>
              key.purpose == Transfer && (strict ==> SubmittedOrNot(db.intents[key]))
    ensures db.orders[key.order].status == RetirementProcessing ==>
              key.purpose != Transfer && (key.purpose == Retirement ==> SubmittedOrNot(db.intents[key]))
    ensures key.purpose == Retirement && !Settled(db.intents[key]) ==> db.orders[key.order].status == RetirementProcessing
    ensures key.purpose == Transfer && strict && !Settled(db.intents[key]) ==> db.orders[key.order].status == StellarProcessing
    ensures key.purpose == Deposit ==> db.intents[key].status == Confirmed
  {
    hide Replay, TreasuryOk, HashesUnique, BindingsOk, CheckoutsOk, OutboxOk;
    At(db, key.order, strict);
    match key.purpose {
      case Transfer => assert key == Key(key.order, Transfer);
      case Deposit => assert key == Key(key.order, Deposit);
      case Retirement => assert key == Key(key.order, Retirement);
    }
  }

  // The view of an order whose transfer was confirmed.
  function SettledViewOf(view: View, log: seq<Event>, ledgerAt: Time): View
    requires view.row.Some? && view.transfer.Some? && view.reservation.Some?
  {
    var row := view.row.value;
    view.(row := Some(row.(status := Completed, version := row.version + 1)), log := log,
    reservation := Some(view.reservation.value.(status := Consumed)),
    transfer := Some(view.transfer.value.(status := Confirmed, ledgerAt := Some(ledgerAt))),
    jobs := view.jobs.(settle := 0))
  }

  lemma SettledViewOk(view: View, log: seq<Event>, ledgerAt: Time, strict: bool)
    requires ViewOk(view, strict) && view.row.Some? && view.row.value.status == StellarProcessing
    requires view.transfer.Some? && view.transfer.value.hash.Some?
    requires view.log <= log && Replay(log) == Some(Aggregate(Completed, view.row.value.version + 1))
    ensures view.reservation.Some? && view.reservation.value.status == Reserved
    ensures ViewOk(SettledViewOf(view, log, ledgerAt), strict) && ViewExtends(view, SettledViewOf(view, log, ledgerAt), strict)
  {
    hide Replay;
  }

  lemma CompleteSettlementView(db: Db, key: Key, ledgerAt: Time, strict: bool)
    requires ViewOk(ViewOf(db, key.order), strict) && BeingSettled(db, key) && key in db.intents && db.intents[key].hash.Some?
    requires key.order in db.reservations && db.reservations[key.order].status == Reserved
    ensures ViewOk(ViewOf(CompleteSettlement(db, key, ledgerAt), key.order), strict)
    ensures ViewExtends(ViewOf(db, key.order), ViewOf(CompleteSettlement(db, key, ledgerAt), key.order), strict)
  {
    hide Open, Finish, Replay, ViewOk, ViewExtends;
    var id := key.order;
    var next := CompleteSettlement(db, key, ledgerAt);
    RowReplays(db, id, strict);
    MoveReplays(Consume(db, id), id, "stellar.transfer_confirmed", Completed, db.orders[id].failure);
    JobsFinish(db.outbox, SettleOnramp, id, id);
    assert key == Key(id, Transfer);
    SettledViewOk(ViewOf(db, id), EventsOf(next, id), ledgerAt, strict);
    assert ViewOf(next, id) == SettledViewOf(ViewOf(db, id), EventsOf(next, id), ledgerAt);
  }

  lemma CompleteSettlementKept(db: Db, key: Key, ledgerAt: Time, strict: bool)
    requires Inv(db, strict) && BeingSettled(db, key) && key in db.intents && db.intents[key].hash.Some?
    requires key.order in db.reservations && db.orders[key.order].direction == Onramp
    requires strict ==> !Settled(db.intents[key])
    ensures Kept(db, CompleteSettlement(db, key, ledgerAt), strict)
  {
    hide ViewOk, ViewExtends, Extends, TreasuryOk, Inv, BindingsOk, CheckoutsOk, OutboxOk, HashTaken, Open;
    var next := CompleteSettlement(db, key, ledgerAt);
    var id := key.order;
    At(db, id, strict);
    ReservationOf(db, id, strict);
    CompleteSettlementView(db, key, ledgerAt, strict);
    ReleaseTreasury(db, id, next, strict);
    forall other: OrderId | other != id
      ensures JobsOf(next.outbox, other) == JobsOf(db.outbox, other)
    {
      JobsFinish(db.outbox, SettleOnramp, id, other);
    }
    BindingsKept(db, next, id, strict);
    Close(db, next, id, key, strict);
  }

  lemma SettledIsOnramp(db: Db, id: OrderId, strict: bool)
    requires Inv(db, strict) && id in db.orders && db.orders[id].status == StellarProcessing
    ensures db.orders[id].direction == Onramp
  {
    hide Replay, TreasuryOk, HashesUnique, BindingsOk, CheckoutsOk, OutboxOk;
    At(db, id, strict);
  }

  lemma ConfirmKept(db: Db, key: Key, hash: Hash, ledgerAt: Time, strict: bool)
    requires Inv(db, strict) && Confirm(db, key, hash, ledgerAt).Committed?
    ensures Kept(db, Confirm(db, key, hash, ledgerAt).db, strict)
  {
    hide Inv, Extends, CompleteSettlement;
    if db.intents[key].status == Confirmed {
      Unchanged(db, strict);
    } else {
      ProcessingIntent(db, key, strict);
      SettledIsOnramp(db, key.order, strict);
      CompleteSettlementKept(db, key, ledgerAt, strict);
    }
  }

  // What may fail, and how.
  predicate Failing(db: Db, key: Key, next: Status, topic: Topic, strict: bool) {
    && key in db.intents && key.order in db.orders
    && (key.purpose != Transfer || strict ==> !Settled(db.intents[key]))
    && ((BeingSettled(db, key) && next == StellarFailed && topic == SettleOnramp)
        || (key.purpose == Retirement && db.orders[key.order].status == RetirementProcessing
            && next == RetirementFailed && topic == RetireOfframp))
  }

  // The view of an order that fails on Stellar.
  function FailedView(view: View, log: seq<Event>, purpose: Purpose, next: Status, code: string): View
    requires view.row.Some? && (if purpose == Transfer then view.transfer.Some? else view.retirement.Some?)
  {
    var row := view.row.value;
    var failed := view.(row := Some(row.(status := next, version := row.version + 1, failure := Some(code))), log := log);
    if purpose == Transfer
    then failed.(transfer := Some(view.transfer.value.(status := Failed)), jobs := view.jobs.(settle := 0))
    else failed.(retirement := Some(view.retirement.value.(status := Failed)), jobs := view.jobs.(retire := 0))
  }

  lemma FailedViewOk(view: View, log: seq<Event>, purpose: Purpose, next: Status, code: string, strict: bool)
    requires ViewOk(view, strict) && view.row.Some?
    requires || (purpose == Transfer && view.row.value.status == StellarProcessing && next == StellarFailed && view.transfer.Some?)
             || (purpose == Retirement && view.row.value.status == RetirementProcessing && next == RetirementFailed && view.retirement.Some?)
    requires view.log <= log && Replay(log) == Some(Aggregate(next, view.row.value.version + 1))
    ensures ViewOk(FailedView(view, log, purpose, next, code), strict) && ViewExtends(view, FailedView(view, log, purpose, next, code), strict)
  {
    hide Replay;
  }

  lemma FailIntentView(db: Db, key: Key, kind: string, next: Status, code: string, topic: Topic, strict: bool)
    requires ViewOk(ViewOf(db, key.order), strict) && Failing(db, key, next, topic, strict)
    ensures ViewOk(ViewOf(FailIntent(db, key, kind, next, code, topic), key.order), strict)
    ensures ViewExtends(ViewOf(db, key.order), ViewOf(FailIntent(db, key, kind, next, code, topic), key.order), strict)
  {
    hide Open, Finish, Replay, ViewOk, ViewExtends;
    var id := key.order;
    var failed := FailIntent(db, key, kind, next, code, topic);
    RowReplays(db, id, strict);
    MoveReplays(db, id, kind, next, Some(code));
    JobsFinish(db.outbox, topic, id, id);
    assert key == Key(id, key.purpose);
    FailedViewOk(ViewOf(db, id), EventsOf(failed, id), key.purpose, next, code, strict);
    assert ViewOf(failed, id) == FailedView(ViewOf(db, id), EventsOf(failed, id), key.purpose, next, code);
  }

  lemma FailIntentTouches(db: Db, key: Key, kind: string, next: Status, code: string, topic: Topic)
    requires key in db.intents && key.order in db.orders
    ensures OnlyTouches(db, FailIntent(db, key, kind, next, code, topic), key.order)
  {
    hide Open, Finish;
    forall other: OrderId | other != key.order
      ensures JobsOf(FailIntent(db, key, kind, next, code, topic).outbox, other) == JobsOf(db.outbox, other)
    {
      JobsFinish(db.outbox, topic, key.order, other);
    }
  }

  lemma FailIntentKept(db: Db, key: Key, kind: string, next: Status, code: string, topic: Topic, strict: bool)
    requires Inv(db, strict) && Failing(db, key, next, topic, strict)
    ensures Kept(db, FailIntent(db, key, kind, next, code, topic), strict)
  {
    hide ViewOk, ViewOf, ViewExtends, OnlyTouches, Extends, TreasuryOk, Inv, BindingsOk, CheckoutsOk, OutboxOk, HashTaken, Open;
    var failed := FailIntent(db, key, kind, next, code, topic);
    At(db, key.order, strict);
    FailIntentView(db, key, kind, next, code, topic, strict);
    TreasuryKept(db, failed, strict);
    FailIntentTouches(db, key, kind, next, code, topic);
    BindingsKept(db, failed, key.order, strict);
    Close(db, failed, key.order, key, strict);
  }

  lemma FailPermanentKept(db: Db, key: Key, strict: bool)
    requires Inv(db, strict) && FailPermanent(db, key).Committed?
    ensures Kept(db, FailPermanent(db, key).db, strict)
  {
    hide Inv, Extends, FailIntent;
    ProcessingIntent(db, key, strict);
    FailIntentKept(db, key, "stellar.failed", StellarFailed, "stellar_permanent_failure", SettleOnramp, strict);
  }

  // Leases, reschedulings and requeueings open and close no message.
  lemma OutboxRewriteKept(db: Db, outbox: seq<Message>, strict: bool)
    requires Inv(db, strict)
    requires |outbox| == |db.outbox|
    requires forall i :: 0 <= i < |outbox| ==> SameJob(db.outbox[i], outbox[i])
    ensures Kept(db, db.(outbox := outbox), strict)
  {
    hide ViewOk, ViewExtends, Extends, TreasuryOk, Inv, BindingsOk, CheckoutsOk, OutboxOk, HashTaken, Open;
    var next := db.(outbox := outbox);
    forall id: OrderId
      ensures ViewOf(next, id) == ViewOf(db, id)
    {
      JobsSame(db.outbox, outbox, id);
    }
    At(db, "", strict);
    SameView(ViewOf(db, ""), strict);
    TreasuryKept(db, next, strict);
    BindingsKept(db, next, "", strict);
    Close(db, next, "", Key("", Transfer), strict);
  }

  // ---------------------------------------------------------------- off-ramp

  lemma CreateOfframpView(db: Db, request: OfframpRequest, strict: bool)
    requires ViewOk(ViewOf(db, request.id), strict) && CreateOfframp(db, request).Committed?
    ensures ViewOk(ViewOf(CreateOfframp(db, request).db, request.id), strict)
    ensures ViewExtends(ViewOf(db, request.id), ViewOf(CreateOfframp(db, request).db, request.id), strict)
  {
    var created := Event(1, "order.created", None, Created);
    var issued := Event(2, "deposit.instructions_issued", Some(Created), AssetPending);
    ReplayAppend([created], issued);
    assert EventsOf(CreateOfframp(db, request).db, request.id) == [created] + [issued];
  }

  lemma CreateOfframpKept(db: Db, request: OfframpRequest, strict: bool)
    requires Inv(db, strict) && request.key.operation == Offramp
    requires CreateOfframp(db, request).Committed?
    ensures Kept(db, CreateOfframp(db, request).db, strict)
  {
    hide ViewOk, ViewExtends, Extends, TreasuryOk, Inv, BindingsOk, CheckoutsOk, OutboxOk;
    var next := CreateOfframp(db, request).db;
    At(db, request.id, strict);
    CreateOfframpView(db, request, strict);
    TreasuryKept(db, next, strict);
    NewBinding(db, next, request.key, request.id, strict);
    Close(db, next, request.id, Key(request.id, Deposit), strict);
  }

  lemma DepositClosedView(db: Db, id: OrderId, kind: string, next: Status, failure: Option<string>, strict: bool)
    requires ViewOk(ViewOf(db, id), strict)
    requires id in db.orders && db.orders[id].status == AssetPending && next in {Expired, AssetInvalid}
    ensures ViewOk(ViewOf(Move(db, id, kind, next, failure), id), strict)
    ensures ViewExtends(ViewOf(db, id), ViewOf(Move(db, id, kind, next, failure), id), strict)
  {
    MoveReplays(db, id, kind, next, failure);
  }

  lemma DepositClosedKept(db: Db, id: OrderId, kind: string, next: Status, failure: Option<string>, strict: bool)
    requires Inv(db, strict)
    requires id in db.orders && db.orders[id].status == AssetPending && next in {Expired, AssetInvalid}
    ensures Kept(db, Move(db, id, kind, next, failure), strict)
  {
    hide ViewOk, ViewExtends, Extends, TreasuryOk, Inv, BindingsOk, CheckoutsOk, OutboxOk;
    var moved := Move(db, id, kind, next, failure);
    At(db, id, strict);
    DepositClosedView(db, id, kind, next, failure, strict);
    TreasuryKept(db, moved, strict);
    BindingsKept(db, moved, id, strict);
    Close(db, moved, id, Key(id, Deposit), strict);
  }

  // The view of an order whose deposit was received.
  function RetirementStarted(view: View, log: seq<Event>, payment: Payment): View
    requires view.row.Some?
  {
    var row := view.row.value;
    view.(row := Some(row.(status := RetirementProcessing, version := row.version + 2)), log := log,
    deposit := Some(Intent(row.stroops, Confirmed, Some(payment.hash), payment.ledgerAt, 1)),
    retirement := Some(Intent(row.stroops, Pending, None, None, 0)),
    jobs := view.jobs.(retire := view.jobs.retire + 1))
  }

  lemma RetirementStartedOk(view: View, log: seq<Event>, payment: Payment, strict: bool)
    requires ViewOk(view, strict) && view.row.Some? && view.row.value.status == AssetPending && payment.ledgerAt.Some?
    requires view.log <= log && Replay(log) == Some(Aggregate(RetirementProcessing, view.row.value.version + 2))
    ensures view.row.value.direction == Offramp
    ensures ViewOk(RetirementStarted(view, log, payment), strict) && ViewExtends(view, RetirementStarted(view, log, payment), strict)
  {
    hide Replay;
  }

  lemma StartRetirementIs(db: Db, id: OrderId, payment: Payment, now: Time)
    requires id in db.orders
    requires var next := StartRetirement(db, id, payment, now);
             Get(next.orders, id) == Some(db.orders[id].(status := RetirementProcessing, version := db.orders[id].version + 2))
             && next.reservations == db.reservations && next.payouts == db.payouts
    ensures var next := StartRetirement(db, id, payment, now);
            ViewOf(next, id) == RetirementStarted(ViewOf(db, id), EventsOf(next, id), payment)
  {
    hide Open, Move, EventsOf;
    JobsAppend(db.outbox, NewMessage(RetireOfframp, id, now), id);
  }

  lemma StartRetirementView(db: Db, id: OrderId, payment: Payment, now: Time, strict: bool)
    requires ViewOk(ViewOf(db, id), strict) && id in db.orders && db.orders[id].status == AssetPending
    requires payment.ledgerAt.Some?
    ensures db.orders[id].direction == Offramp
    ensures ViewOk(ViewOf(StartRetirement(db, id, payment, now), id), strict)
    ensures ViewExtends(ViewOf(db, id), ViewOf(StartRetirement(db, id, payment, now), id), strict)
  {
    hide Open, Replay, ViewOk, ViewExtends, Move;
    var next := StartRetirement(db, id, payment, now);
    RowReplays(db, id, strict);
    MoveTwiceReplays(db, id, "asset.received", AssetReceived, "retirement.requested", RetirementProcessing, db.orders[id].failure);
    RetirementStartedOk(ViewOf(db, id), EventsOf(next, id), payment, strict);
    StartRetirementIs(db, id, payment, now);
  }

  lemma StartRetirementTouches(db: Db, id: OrderId, payment: Payment, now: Time)
    requires id in db.orders
    ensures OnlyTouches(db, StartRetirement(db, id, payment, now), id)
  {
    hide Open;
    forall other: OrderId | other != id
      ensures JobsOf(StartRetirement(db, id, payment, now).outbox, other) == JobsOf(db.outbox, other)
    {
      JobsAppend(db.outbox, NewMessage(RetireOfframp, id, now), other);
    }
  }

  lemma StartRetirementKept(db: Db, id: OrderId, payment: Payment, now: Time, strict: bool)
    requires Inv(db, strict) && id in db.orders && db.orders[id].status == AssetPending
    requires payment.ledgerAt.Some? && !HashTaken(db, Key(id, Deposit), payment.hash)
    ensures Kept(db, StartRetirement(db, id, payment, now), strict)
  {
    hide ViewOk, ViewOf, ViewExtends, OnlyTouches, Extends, TreasuryOk, Inv, BindingsOk, CheckoutsOk, OutboxOk, HashTaken, Open;
    var next := StartRetirement(db, id, payment, now);
    At(db, id, strict);
    StartRetirementView(db, id, payment, now, strict);
    TreasuryKept(db, next, strict);
    StartRetirementTouches(db, id, payment, now);
    BindingsKept(db, next, id, strict);
    NoIntents(db, id, strict);
    Close(db, next, id, Key(id, Deposit), strict);
  }

  lemma RecordAssetReceivedKept(db: Db, id: OrderId, payment: Payment, now: Time, strict: bool)
    requires Inv(db, strict) && RecordAssetReceived(db, id, payment, now).Committed?
    ensures Kept(db, RecordAssetReceived(db, id, payment, now).db, strict)
  {
    hide Inv, Extends, StartRetirement, HashTaken, DepositIntentTaken;
    if db.orders[id].status == AssetPending {
      StartRetirementKept(db, id, payment, now, strict);
    } else {
      Unchanged(db, strict);
    }
  }

  lemma SaveRetirementHashKept(db: Db, key: Key, hash: Hash, strict: bool)
    requires Inv(db, strict) && SaveRetirementHash(db, key, hash).Committed?
    ensures Kept(db, SaveRetirementHash(db, key, hash).db, strict)
  {
    hide Inv, HashTaken, Extends;
    ProcessingIntent(db, key, strict);
    WorkKept(db, key, SaveRetirementHash(db, key, hash).db.intents[key], strict);
  }

  lemma ResetRetirementHashKept(db: Db, key: Key, hash: Hash, strict: bool)
    requires Inv(db, strict) && ResetRetirementHash(db, key, hash).Committed?
    ensures Kept(db, ResetRetirementHash(db, key, hash).db, strict)
  {
    hide Inv, HashTaken, Extends;
    ProcessingIntent(db, key, strict);
    WorkKept(db, key, ResetRetirementHash(db, key, hash).db.intents[key], strict);
  }

  lemma WithdrawalJobs(outbox: seq<Message>, id: OrderId, now: Time, other: OrderId)
    ensures JobsOf(Finish(outbox, RetireOfframp, id) + [NewMessage(SimulatePayout, id, now)], other)
         == if other == id
            then ClearJob(JobsOf(outbox, id), RetireOfframp).(payout := JobsOf(outbox, id).payout + 1)
            else JobsOf(outbox, other)
  {
    JobsFinish(outbox, RetireOfframp, id, other);
    JobsAppend(Finish(outbox, RetireOfframp, id), NewMessage(SimulatePayout, id, now), other);
  }

  // The two ways a retirement succeeds.
  predicate Retired(db: Db, key: Key, intent: Intent) {
    && key in db.intents && key.purpose == Retirement
    && key.order in db.orders && db.orders[key.order].status == RetirementProcessing
    && intent.amount == db.intents[key].amount && intent.hash == db.intents[key].hash
    && ((intent.status == Confirmed && intent.hash.Some? && intent.ledgerAt.Some?)
        || (intent.status == Simulated && intent.hash.None? && intent.ledgerAt.None?))
  }

  lemma ToWithdrawalView(db: Db, key: Key, kind: string, now: Time, intent: Intent, strict: bool)
    requires ViewOk(ViewOf(db, key.order), strict) && Retired(db, key, intent)
    ensures db.orders[key.order].direction == Offramp
    ensures ViewOk(ViewOf(ToWithdrawal(db, key.order, kind, now).(intents := db.intents[key := intent]), key.order), strict)
    ensures ViewExtends(ViewOf(db, key.order), ViewOf(ToWithdrawal(db, key.order, kind, now).(intents := db.intents[key := intent]), key.order), strict)
  {
    hide Open, Finish;
    MoveReplays(db, key.order, kind, WithdrawalProcessing, db.orders[key.order].failure);
    WithdrawalJobs(db.outbox, key.order, now, key.order);
  }

  lemma ToWithdrawalKept(db: Db, key: Key, kind: string, now: Time, intent: Intent, strict: bool)
    requires Inv(db, strict) && Retired(db, key, intent) && !Settled(db.intents[key])
    ensures Kept(db, ToWithdrawal(db, key.order, kind, now).(intents := db.intents[key := intent]), strict)
  {
    hide ViewOk, ViewExtends, Extends, TreasuryOk, Inv, BindingsOk, CheckoutsOk, OutboxOk, HashTaken, Open, Finish;
    var next := ToWithdrawal(db, key.order, kind, now).(intents := db.intents[key := intent]);
    At(db, key.order, strict);
    ToWithdrawalView(db, key, kind, now, intent, strict);
    TreasuryKept(db, next, strict);
    forall other: OrderId | other != key.order
      ensures JobsOf(next.outbox, other) == JobsOf(db.outbox, other)
    {
      WithdrawalJobs(db.outbox, key.order, now, other);
    }
    BindingsKept(db, next, key.order, strict);
    Close(db, next, key.order, key, strict);
  }

  lemma SimulateRetirementKept(db: Db, key: Key, now: Time, strict: bool)
    requires Inv(db, strict) && SimulateRetirement(db, key, now).Committed?
    ensures Kept(db, SimulateRetirement(db, key, now).db, strict)
  {
    hide Inv, Extends, ToWithdrawal;
    if db.intents[key].status != Simulated {
      ToWithdrawalKept(db, key, "retirement.simulated", now, db.intents[key].(status := Simulated), strict);
    } else {
      Unchanged(db, strict);
    }
  }

  lemma Unchanged(db: Db, strict: bool)
    requires Inv(db, strict)
    ensures Kept(db, db, strict)
  {
    hide Inv, ViewOf;
  }

  lemma ConfirmRetirementKept(db: Db, key: Key, hash: Hash, ledgerAt: Time, now: Time, strict: bool)
    requires Inv(db, strict) && ConfirmRetirement(db, key, hash, ledgerAt, now).Committed?
    ensures Kept(db, ConfirmRetirement(db, key, hash, ledgerAt, now).db, strict)
  {
    hide Inv, Extends, ToWithdrawal;
    ProcessingIntent(db, key, strict);
    if db.intents[key].status != Confirmed {
      ToWithdrawalKept(db, key, "retirement.confirmed", now,
                       db.intents[key].(status := Confirmed, ledgerAt := Some(ledgerAt)), strict);
    } else {
      Unchanged(db, strict);
    }
  }

  lemma FailRetirementKept(db: Db, key: Key, strict: bool)
    requires Inv(db, strict) && key.purpose == Retirement && FailRetirement(db, key).Committed?
    ensures Kept(db, FailRetirement(db, key).db, strict)
  {
    hide Inv, Extends, FailIntent;
    ProcessingIntent(db, key, strict);
    FailIntentKept(db, key, "retirement.failed", RetirementFailed, "retirement_failed", RetireOfframp, strict);
  }

  // A payout job names the order its message belongs to.
  predicate PayoutJob(db: Db, id: OrderId, index: nat) {
    index < |db.outbox| && db.outbox[index].topic == SimulatePayout && db.outbox[index].order == id
  }

  lemma PayoutJobs(db: Db, id: OrderId, index: nat, other: OrderId)
    requires PayoutJob(db, id, index)
    ensures var before, after := JobsOf(db.outbox, other), JobsOf(FinishMessage(db.outbox, index, SimulatePayout), other);
            && after.settle == before.settle && after.retire == before.retire
            && after.payout == before.payout - (if other == id && !db.outbox[index].processed then 1 else 0)
  {
    var job := db.outbox[index];
    OpenUpdate(db.outbox, index, Processed(job), SettleOnramp, other);
    OpenUpdate(db.outbox, index, Processed(job), RetireOfframp, other);
    OpenUpdate(db.outbox, index, Processed(job), SimulatePayout, other);
  }

  // A payout job already processed belongs to an order already paid out.
  lemma CurrentJob(db: Db, id: OrderId, index: nat, strict: bool)
    requires Inv(db, strict) && PayoutJob(db, id, index)
    ensures id in db.orders && db.orders[id].direction == Offramp
    ensures db.outbox[index].processed ==> db.orders[id].status == Completed
  {
    hide ViewOk, ViewOf, SumReserved, HashesUnique;
    assert Belongs(db, db.outbox[index]);
  }

  lemma FirstPayoutView(db: Db, id: OrderId, index: nat, strict: bool)
    requires ViewOk(ViewOf(db, id), strict) && PayoutJob(db, id, index)
    requires id in db.orders && db.orders[id].status == WithdrawalProcessing && !db.outbox[index].processed
    ensures ViewOk(ViewOf(PayOut(db, id, index), id), strict)
    ensures ViewExtends(ViewOf(db, id), ViewOf(PayOut(db, id, index), id), strict)
  {
    hide Open, FinishMessage;
    PayoutJobs(db, id, index, id);
    MoveReplays(db, id, "payout.simulated", Completed, db.orders[id].failure);
  }

  lemma FirstPayoutKept(db: Db, id: OrderId, index: nat, strict: bool)
    requires Inv(db, strict) && PayoutJob(db, id, index)
    requires id in db.orders && db.orders[id].status == WithdrawalProcessing && !db.outbox[index].processed
    ensures Kept(db, PayOut(db, id, index), strict)
  {
    hide ViewOk, ViewExtends, Extends, TreasuryOk, Inv, BindingsOk, CheckoutsOk, OutboxOk, HashTaken, Open;
    var next := PayOut(db, id, index);
    At(db, id, strict);
    FirstPayoutView(db, id, index, strict);
    TreasuryKept(db, next, strict);
    forall other: OrderId | other != id
      ensures JobsOf(next.outbox, other) == JobsOf(db.outbox, other)
    {
      PayoutJobs(db, id, index, other);
    }
    BindingsKept(db, next, id, strict);
    Close(db, next, id, Key(id, Retirement), strict);
  }

  // Redelivering the payout job of a completed order changes nothing.
  lemma RepeatedPayout(db: Db, id: OrderId, index: nat, strict: bool)
    requires Inv(db, strict) && PayoutJob(db, id, index)
    requires id in db.orders && db.orders[id].status == Completed
    ensures CompletePayout(db, id, index) == Committed(db)
  {
    hide Replay, TreasuryOk, HashesUnique, BindingsOk, CheckoutsOk;
    At(db, id, strict);
    OpenNone(db.outbox, SimulatePayout, id);
    assert db.outbox[index].order == id;
  }

  lemma CompletePayoutKept(db: Db, id: OrderId, index: nat, strict: bool)
    requires Inv(db, strict) && PayoutJob(db, id, index) && CompletePayout(db, id, index).Committed?
    ensures Kept(db, CompletePayout(db, id, index).db, strict)
  {
    hide Inv, Extends, PayOut;
    CurrentJob(db, id, index, strict);
    if db.orders[id].status == WithdrawalProcessing {
      FirstPayoutKept(db, id, index, strict);
    } else {
      RepeatedPayout(db, id, index, strict);
      Unchanged(db, strict);
    }
  }
}
