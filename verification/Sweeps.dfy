// The periodic sweeps: each takes the earliest due rows, up to a limit, and
// works through them in one transaction.
module Sweeps {
  import opened Prelude
  import opened Orders
  import opened Ledger
  import opened Invariant
  import opened Transactions
  import opened Effects

  // ---------------------------------------------------------------- selection

  // The rows that ORDER BY due time with a LIMIT selects.
  ghost predicate EarliestRows(due: map<OrderId, Time>, limit: nat, rows: seq<OrderId>) {
    && |rows| <= limit
    && (forall i :: 0 <= i < |rows| ==> rows[i] in due)
    && (forall i, j :: 0 <= i < j < |rows| ==> rows[i] != rows[j] && due[rows[i]] <= due[rows[j]])
    && (forall id :: id in due && id !in rows ==> |rows| == limit && forall i :: 0 <= i < |rows| ==> due[rows[i]] <= due[id])
  }

  method Earliest(due: map<OrderId, Time>) returns (first: OrderId)
    requires due != map[]
    ensures first in due && forall id :: id in due ==> due[first] <= due[id]
  {
    var left := due.Keys;
    first :| first in left;
    left := left - {first};
    while left != {}
      invariant first in due && left <= due.Keys
      invariant forall id :: id in due && id !in left ==> due[first] <= due[id]
      decreases |left|
    {
      var id :| id in left;
      left := left - {id};
      if due[id] < due[first] {
        first := id;
      }
    }
  }

  method SelectEarliest(due: map<OrderId, Time>, limit: nat) returns (rows: seq<OrderId>)
    ensures EarliestRows(due, limit, rows)
  {
    rows := [];
    var left := due;
    while |rows| < limit && left != map[]
      invariant |rows| <= limit
      invariant forall id :: id in left <==> id in due && id !in rows
      invariant forall id :: id in left ==> left[id] == due[id]
      invariant forall i :: 0 <= i < |rows| ==> rows[i] in due
      invariant forall i, j :: 0 <= i < j < |rows| ==> rows[i] != rows[j] && due[rows[i]] <= due[rows[j]]
      invariant forall i, id :: 0 <= i < |rows| && id in left ==> due[rows[i]] <= due[id]
      decreases limit - |rows|
    {
      var first := Earliest(left);
      assert first !in rows;
      rows := rows + [first];
      left := left - {first};
    }
  }

  // When no more rows are due than the limit allows, all of them are taken.
  lemma AllTaken(due: map<OrderId, Time>, limit: nat, rows: seq<OrderId>)
    requires EarliestRows(due, limit, rows) && |due| <= limit
    ensures forall id :: id in due ==> id in rows
  {
    var taken := set i | 0 <= i < |rows| :: rows[i];
    Distinct(rows, |rows|);
    forall id | id in due
      ensures id in rows
    {
      if id !in rows {
        assert taken <= due.Keys - {id};
        Subset(taken, due.Keys - {id});
      }
    }
  }

  lemma {:induction false} Distinct(rows: seq<OrderId>, n: nat)
    requires n <= |rows|
    requires forall i, j :: 0 <= i < j < |rows| ==> rows[i] != rows[j]
    ensures |set i | 0 <= i < n :: rows[i]| == n
  {
    if n > 0 {
      Distinct(rows, n - 1);
      assert (set i | 0 <= i < n :: rows[i]) == (set i | 0 <= i < n - 1 :: rows[i]) + {rows[n - 1]};
    }
  }

  lemma {:induction false} Subset<T>(a: set<T>, b: set<T>)
    requires a <= b
    ensures |a| <= |b|
  {
    if a != {} {
      var x :| x in a;
      Subset(a - {x}, b - {x});
    }
  }

  // ---------------------------------------------------------------- reservations

  function DueReservations(db: Db, now: Time, locked: set<OrderId>): map<OrderId, Time> {
    map id | id in db.reservations && id !in locked && db.reservations[id].status == Reserved
             && db.reservations[id].expiresAt < now :: db.reservations[id].expiresAt
  }

  function ReleaseRows(db: Db, rows: seq<OrderId>): Result
    decreases |rows|
  {
    if rows == [] then Committed(db)
    else
      match ReleaseExpired(db, rows[0])
      case RolledBack(error) => RolledBack(error)
      case Committed(next) => ReleaseRows(next, rows[1..])
  }

  predicate AwaitsPayment(db: Db, id: OrderId) {
    id in db.orders && db.orders[id].status == PaymentPending
  }

  // How many orders a sweep expires, counted as it goes.
  function ReleasedRows(db: Db, rows: seq<OrderId>): nat
    decreases |rows|
  {
    if rows == [] then 0
    else
      match ReleaseExpired(db, rows[0])
      case RolledBack(_) => 0
      case Committed(next) => (if AwaitsPayment(db, rows[0]) then 1 else 0) + ReleasedRows(next, rows[1..])
  }

  // How many of the rows belong to orders that await payment to begin with.
  function PendingRows(db: Db, rows: seq<OrderId>): nat {
    if rows == [] then 0 else (if AwaitsPayment(db, rows[0]) then 1 else 0) + PendingRows(db, rows[1..])
  }

  lemma {:induction false} PendingSame(a: Db, b: Db, rows: seq<OrderId>)
    requires forall i :: 0 <= i < |rows| ==> AwaitsPayment(a, rows[i]) == AwaitsPayment(b, rows[i])
    ensures PendingRows(a, rows) == PendingRows(b, rows)
  {
    if rows != [] {
      PendingSame(a, b, rows[1..]);
    }
  }

  lemma ReleaseOne(db: Db, id: OrderId, strict: bool)
    requires Inv(db, strict) && id in db.reservations
    ensures ReleaseExpired(db, id).Committed? && Kept(db, ReleaseExpired(db, id).db, strict)
    ensures var next := ReleaseExpired(db, id).db;
            && next.reservations.Keys == db.reservations.Keys && next.orders.Keys == db.orders.Keys
            && (forall other :: other in db.orders && other != id ==> next.orders[other] == db.orders[other])
            && id in db.orders
            && next.orders[id] == if db.orders[id].status == PaymentPending
                                  then db.orders[id].(status := Expired, version := db.orders[id].version + 1) else db.orders[id]
  {
    hide Inv, Kept, SlotFree, EventsOf, GiveBack;
    ReservedIsOrder(db, id, strict);
    SlotsFree(db, id, strict);
    ReleaseExpiredKept(db, id, strict);
  }

  lemma ReservedIsOrder(db: Db, id: OrderId, strict: bool)
    requires Inv(db, strict) && id in db.reservations
    ensures id in db.orders
  {
    hide Replay, TreasuryOk, HashesUnique, BindingsOk, CheckoutsOk, OutboxOk;
    At(db, id, strict);
  }

  // A sweep never fails, keeps the invariant, and expires exactly the orders
  // of its rows that still await payment.
  lemma {:induction false} ReleaseSweep(db: Db, rows: seq<OrderId>, strict: bool)
    requires Inv(db, strict)
    requires forall i :: 0 <= i < |rows| ==> rows[i] in db.reservations
    requires forall i, j :: 0 <= i < j < |rows| ==> rows[i] != rows[j]
    ensures ReleaseRows(db, rows).Committed? && Kept(db, ReleaseRows(db, rows).db, strict)
    ensures ReleasedRows(db, rows) == PendingRows(db, rows)
    ensures var next := ReleaseRows(db, rows).db;
            forall id :: id in db.orders ==>
              && id in next.orders
              && next.orders[id] == if id in rows && db.orders[id].status == PaymentPending
                                    then db.orders[id].(status := Expired, version := db.orders[id].version + 1) else db.orders[id]
    decreases |rows|
  {
    hide Inv, Extends, ReleaseExpired;
    if rows == [] {
      Unchanged(db, strict);
    } else {
      ReleaseOne(db, rows[0], strict);
      var next := ReleaseExpired(db, rows[0]).db;
      ReleaseSweep(next, rows[1..], strict);
      PendingSame(db, next, rows[1..]);
      ExtendsTransitive(db, next, ReleaseRows(db, rows).db, strict);
    }
  }

  // Reservations held for orders in another status stay due and keep their
  // place in the queue. Once they fill the limit, a sweep does nothing, for
  // ever.
  lemma {:induction false} HeldRowsStarveTheSweep(db: Db, rows: seq<OrderId>)
    requires forall i :: 0 <= i < |rows| ==> rows[i] in db.reservations && rows[i] in db.orders
                                             && db.orders[rows[i]].status != PaymentPending
    ensures ReleaseRows(db, rows) == Committed(db)
    decreases |rows|
  {
    hide Release, Move, SlotFree;
    if rows != [] {
      HeldRowsStarveTheSweep(db, rows[1..]);
    }
  }

  // A sweep leaves the tables alone exactly when none of its rows awaits payment.
  lemma IdleSweeps(db: Db, rows: seq<OrderId>, strict: bool)
    requires Inv(db, strict)
    requires forall i :: 0 <= i < |rows| ==> rows[i] in db.reservations
    requires forall i, j :: 0 <= i < j < |rows| ==> rows[i] != rows[j]
    ensures (forall i :: 0 <= i < |rows| ==> rows[i] in db.orders)
    ensures ReleaseRows(db, rows) == Committed(db) <==> forall i :: 0 <= i < |rows| ==> db.orders[rows[i]].status != PaymentPending
  {
    hide Inv, Extends, ReleaseRows;
    ReleaseSweep(db, rows, strict);
    forall i | 0 <= i < |rows|
      ensures rows[i] in db.orders
      ensures ReleaseRows(db, rows) == Committed(db) ==> db.orders[rows[i]].status != PaymentPending
    {
      ReservedIsOrder(db, rows[i], strict);
      assert rows[i] in rows;
    }
    if forall i :: 0 <= i < |rows| ==> db.orders[rows[i]].status != PaymentPending {
      HeldRowsStarveTheSweep(db, rows);
    }
  }

  // When the due reservations fit the limit, every order among them that
  // awaits payment expires.
  lemma SweepReachesAll(db: Db, now: Time, limit: nat, locked: set<OrderId>, rows: seq<OrderId>, id: OrderId, strict: bool)
    requires Inv(db, strict) && EarliestRows(DueReservations(db, now, locked), limit, rows)
    requires |DueReservations(db, now, locked)| <= limit && id in DueReservations(db, now, locked)
    ensures id in db.orders && ReleaseRows(db, rows).Committed? && id in ReleaseRows(db, rows).db.orders
    ensures db.orders[id].status == PaymentPending ==> ReleaseRows(db, rows).db.orders[id].status == Expired
  {
    hide Inv, Extends, ReleaseRows;
    AllTaken(DueReservations(db, now, locked), limit, rows);
    ReleaseSweep(db, rows, strict);
    ReservedIsOrder(db, id, strict);
  }

  // A sweep expires an order only if it awaited payment past the expiry of its
  // reservation and nobody held its row; and it passes over such an order only
  // for `limit` rows that were due no later.
  lemma SweepExpiresTheOverdue(db: Db, now: Time, limit: nat, locked: set<OrderId>, rows: seq<OrderId>, id: OrderId, strict: bool)
    requires Inv(db, strict) && EarliestRows(DueReservations(db, now, locked), limit, rows) && id in db.orders
    ensures ReleaseRows(db, rows).Committed? && id in ReleaseRows(db, rows).db.orders
    ensures var before, after := db.orders[id], ReleaseRows(db, rows).db.orders[id];
            var overdue := before.status == PaymentPending && id !in locked && id in db.reservations && db.reservations[id].expiresAt < now;
            && (after != before ==> overdue && after.status == Expired)
            && (overdue && after == before ==>
                  |rows| == limit
                  && forall i :: 0 <= i < limit ==> rows[i] != id && rows[i] in db.reservations
                                                    && db.reservations[rows[i]].expiresAt <= db.reservations[id].expiresAt)
  {
    hide Inv, Extends, ReleaseRows;
    ReleaseSweep(db, rows, strict);
    if db.orders[id].status == PaymentPending {
      AwaitingIsOnramp(db, id, strict);
      ReservationOf(db, id, strict);
      if id !in rows && id in DueReservations(db, now, locked) {
        assert |rows| == limit;
      }
    }
  }

  // ---------------------------------------------------------------- deposits

  function DueDeposits(db: Db, now: Time, locked: set<OrderId>): map<OrderId, Time> {
    map id | id in db.orders && id !in locked && db.orders[id].direction == Offramp && db.orders[id].status == AssetPending
             && db.orders[id].expiresAt.Some? && db.orders[id].expiresAt.value <= now :: db.orders[id].expiresAt.value
  }

  function ExpireRows(db: Db, rows: seq<OrderId>): Result
    decreases |rows|
  {
    if rows == [] then Committed(db)
    else
      match ExpireDeposit(db, rows[0])
      case RolledBack(error) => RolledBack(error)
      case Committed(next) => ExpireRows(next, rows[1..])
  }

  lemma ExpireOne(db: Db, id: OrderId, strict: bool)
    requires Inv(db, strict) && id in db.orders && db.orders[id].status == AssetPending
    ensures ExpireDeposit(db, id).Committed? && Kept(db, ExpireDeposit(db, id).db, strict)
    ensures ExpireDeposit(db, id).db.orders
         == db.orders[id := db.orders[id].(status := Expired, version := db.orders[id].version + 1)]
  {
    hide Inv, Kept, SlotFree, EventsOf;
    SlotsFree(db, id, strict);
    DepositClosedKept(db, id, "order.expired", Expired, db.orders[id].failure, strict);
  }

  // Every row of the sweep expires; no other order changes.
  lemma {:induction false} DepositSweep(db: Db, rows: seq<OrderId>, strict: bool)
    requires Inv(db, strict)
    requires forall i :: 0 <= i < |rows| ==> rows[i] in db.orders && db.orders[rows[i]].status == AssetPending
    requires forall i, j :: 0 <= i < j < |rows| ==> rows[i] != rows[j]
    ensures ExpireRows(db, rows).Committed? && Kept(db, ExpireRows(db, rows).db, strict)
    ensures var next := ExpireRows(db, rows).db;
            forall id :: id in db.orders ==>
              && id in next.orders
              && next.orders[id] == if id in rows then db.orders[id].(status := Expired, version := db.orders[id].version + 1)
                                    else db.orders[id]
    decreases |rows|
  {
    hide Inv, Extends, ExpireDeposit;
    if rows == [] {
      Unchanged(db, strict);
    } else {
      ExpireOne(db, rows[0], strict);
      var next := ExpireDeposit(db, rows[0]).db;
      DepositSweep(next, rows[1..], strict);
      ExtendsTransitive(db, next, ExpireRows(db, rows).db, strict);
    }
  }

  // A sweep expires a sale only if its window has closed without a deposit and
  // nobody held its row; and it passes over such a sale only for `limit` others
  // that closed no later.
  lemma SweepClosesTheOverdue(db: Db, now: Time, limit: nat, locked: set<OrderId>, rows: seq<OrderId>, id: OrderId, strict: bool)
    requires Inv(db, strict) && EarliestRows(DueDeposits(db, now, locked), limit, rows) && id in db.orders
    ensures ExpireRows(db, rows).Committed? && id in ExpireRows(db, rows).db.orders
    ensures var before, after := db.orders[id], ExpireRows(db, rows).db.orders[id];
            var overdue := before.status == AssetPending && id !in locked && before.expiresAt.Some? && before.expiresAt.value <= now;
            && (after != before ==> overdue && after.status == Expired)
            && (overdue && after == before ==>
                  |rows| == limit
                  && forall i :: 0 <= i < limit ==> rows[i] != id && rows[i] in db.orders && db.orders[rows[i]].expiresAt.Some?
                                                    && db.orders[rows[i]].expiresAt.value <= before.expiresAt.value)
  {
    hide Inv, Extends, ExpireRows;
    DepositSweep(db, rows, strict);
    if db.orders[id].status == AssetPending {
      AwaitsDeposit(db, id, strict);
    }
  }

  // ---------------------------------------------------------------- retirements

  // How many of the messages a requeue would restart.
  function RequeueableRows(db: Db, outbox: seq<Message>, now: Time, maxAttempts: nat): nat {
    if outbox == [] then 0
    else
      RequeueableRows(db, outbox[..|outbox| - 1], now, maxAttempts)
      + (if Requeueable(db, outbox[|outbox| - 1], now, maxAttempts) then 1 else 0)
  }
}
