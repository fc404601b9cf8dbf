// The deposit scan: every order that awaits a deposit against the recent
// payments to the deposit account.
module Deposits {
  import opened Prelude
  import opened Orders
  import opened Ledger
  import opened Invariant
  import opened Transactions
  import opened Repositories
  import opened Memos

  // An order as the scan sees it.
  datatype Candidate = Candidate(id: OrderId, memo: string, amount: int, code: string, issuer: string)

  datatype Verdict = Exact(payment: Payment) | Wrong(hash: Hash, reason: string) | Unpaid

  type Digest = f: string -> seq<Byte> | forall s :: |f(s)| >= PAYLOAD_BYTES witness s => seq(PAYLOAD_BYTES, i => 0)

  const WRONG_AMOUNT := "deposit amount does not match the quoted amount"
  const WRONG_ASSET := "deposit asset does not match the configured KXLM issuer"

  function ExpectedMemo(order: Candidate, digest: Digest): string {
    if order.memo == "" then DepositMemo(order.id, digest) else order.memo
  }

  predicate Usable(payment: Payment, account: string) {
    payment.to == account && payment.hash != "" && payment.ledgerAt.Some? && payment.amount > 0
  }

  predicate Carries(order: Candidate, payment: Payment, digest: Digest) {
    payment.memo == ExpectedMemo(order, digest)
  }

  predicate Matches(order: Candidate, payment: Payment, digest: Digest) {
    && Carries(order, payment, digest) && payment.amount == order.amount
    && payment.assetCode == order.code && payment.assetIssuer == order.issuer
  }

  function Reason(order: Candidate, payment: Payment): string {
    if payment.amount != order.amount then WRONG_AMOUNT else WRONG_ASSET
  }

  // What the scan makes of an order, payment by payment: the first that
  // matches exactly, or else the first that carries its memo.
  function Judge(order: Candidate, payments: seq<Payment>, digest: Digest): Verdict {
    if payments == [] then Unpaid
    else if Matches(order, payments[0], digest) then Exact(payments[0])
    else
      var later := Judge(order, payments[1..], digest);
      if !later.Exact? && Carries(order, payments[0], digest)
      then Wrong(payments[0].hash, Reason(order, payments[0])) else later
  }

  function UsableOf(payments: seq<Payment>, account: string): seq<Payment> {
    if payments == [] then []
    else
      var last := payments[|payments| - 1];
      UsableOf(payments[..|payments| - 1], account) + (if Usable(last, account) then [last] else [])
  }

  // The tables, the count and the error a scan ends with; an error of one
  // order ends the scan for those after it.
  function Scanned(db: Db, orders: seq<Candidate>, payments: seq<Payment>, digest: Digest, now: Time): (Db, nat, Option<Error>)
    decreases |orders|
  {
    if orders == [] then (db, 0, None)
    else
      match Judge(orders[0], payments, digest)
      case Exact(payment) =>
        (match RecordAssetReceived(db, orders[0].id, payment, now)
         case RolledBack(error) => (db, 0, Some(error))
         case Committed(next) =>
           var rest := Scanned(next, orders[1..], payments, digest, now);
           (rest.0, rest.1 + 1, rest.2))
      case Wrong(_, _) =>
        (match RecordAssetInvalid(db, orders[0].id)
         case RolledBack(error) => (db, 0, Some(error))
         case Committed(next) => Scanned(next, orders[1..], payments, digest, now))
      case Unpaid => Scanned(db, orders[1..], payments, digest, now)
  }

  class DepositScanner {
    const repository: Database
    const digest: Digest

    constructor (repository: Database, digest: Digest)
      ensures this.repository == repository && this.digest == digest
    {
      this.repository, this.digest := repository, digest;
    }

    method ScanDeposits(orders: seq<Candidate>, recent: seq<Payment>, account: string, now: Time)
      returns (matched: nat, failure: Option<Error>)
      modifies repository
      ensures (repository.Tables(), matched, failure)
           == Scanned(old(repository.Tables()), orders, UsableOf(recent, account), digest, now)
    {
      hide Ledger.RecordAssetReceived, Ledger.RecordAssetInvalid, Usable, Judge;
      ghost var start := repository.Tables();
      var pending := [];
      for i := 0 to |recent|
        invariant pending == UsableOf(recent[..i], account)
        invariant repository.Tables() == start
      {
        assert recent[..i + 1][..i] == recent[..i];
        if Usable(recent[i], account) {
          pending := pending + [recent[i]];
        }
      }
      assert recent[..|recent|] == recent;
      matched, failure := 0, None;
      for i := 0 to |orders|
        invariant failure == None
        invariant var rest := Scanned(repository.Tables(), orders[i..], pending, digest, now);
                  Scanned(start, orders, pending, digest, now) == (rest.0, rest.1 + matched, rest.2)
      {
        assert orders[i..][1..] == orders[i + 1..];
        var match_, hash, reason := FindMatch(orders[i], pending);
        if match_.Some? {
          failure := repository.RecordAssetReceived(orders[i].id, match_.value, now);
          if failure.Some? {
            return;
          }
          matched := matched + 1;
        } else if reason != "" {
          failure := repository.RecordAssetInvalid(orders[i].id);
          if failure.Some? {
            return;
          }
        }
      }
    }

    method FindMatch(order: Candidate, pending: seq<Payment>) returns (found: Option<Payment>, hash: Hash, reason: string)
      ensures match Judge(order, pending, digest)
              case Exact(payment) => found == Some(payment)
              case Wrong(h, r) => found == None && hash == h && reason == r && reason != ""
              case Unpaid => found == None && reason == ""
    {
      hide ExpectedMemo;
      found, hash, reason := None, "", "";
      var memo := ExpectedMemo(order, digest);
      for i := 0 to |pending|
        invariant reason in {"", WRONG_AMOUNT, WRONG_ASSET}
        invariant var rest := Judge(order, pending[i..], digest);
                  Judge(order, pending, digest) == if rest.Exact? || reason == "" then rest else Wrong(hash, reason)
      {
        var payment := pending[i];
        assert pending[i..][0] == payment && pending[i..][1..] == pending[i + 1..];
        if payment.memo != memo {
          continue;
        }
        if payment.amount != order.amount {
          if reason == "" {
            reason, hash := WRONG_AMOUNT, payment.hash;
          }
          continue;
        }
        if payment.assetCode != order.code || payment.assetIssuer != order.issuer {
          if reason == "" {
            reason, hash := WRONG_ASSET, payment.hash;
          }
          continue;
        }
        return Some(payment), hash, reason;
      }
    }
  }

  // ---------------------------------------------------------------- what a verdict means

  // An order is received exactly when some payment matches it, and the payment
  // chosen is one; it is invalid exactly when some payment carries its memo
  // and none matches.
  lemma {:induction false} VerdictIsRight(order: Candidate, payments: seq<Payment>, digest: Digest)
    ensures Judge(order, payments, digest).Exact? <==> exists p :: p in payments && Matches(order, p, digest)
    ensures Judge(order, payments, digest).Exact? ==>
              Judge(order, payments, digest).payment in payments && Matches(order, Judge(order, payments, digest).payment, digest)
    ensures Judge(order, payments, digest).Wrong? <==>
              && (exists p :: p in payments && Carries(order, p, digest))
              && (forall p :: p in payments ==> !Matches(order, p, digest))
  {
    hide Carries, ExpectedMemo;
    if payments != [] {
      VerdictIsRight(order, payments[1..], digest);
      assert forall p :: p in payments <==> p == payments[0] || p in payments[1..];
    }
  }

  lemma {:induction false} UsableIsRight(payments: seq<Payment>, account: string)
    ensures forall p :: p in UsableOf(payments, account) <==> p in payments && Usable(p, account)
  {
    hide Usable;
    if payments != [] {
      UsableIsRight(payments[..|payments| - 1], account);
      assert forall p :: p in payments <==> p == payments[|payments| - 1] || p in payments[..|payments| - 1];
    }
  }

  // The row an order was read from.
  predicate ReadFrom(order: Candidate, row: OrderRow, account: string) {
    && row.direction == Offramp && row.source == Some(account)
    && order.amount == row.stroops && order.code == row.assetCode && order.issuer == row.assetIssuer
    && order.memo == match row.memo { case Some(memo) => memo case None => "" }
  }

  // The payment chosen for an order passes the repository's own check exactly
  // when a memo is stored with the order: without one the scan looks for the
  // memo made from its id.
  lemma ChosenIsValid(order: Candidate, row: OrderRow, recent: seq<Payment>, account: string, digest: Digest)
    requires ReadFrom(order, row, account) && Judge(order, UsableOf(recent, account), digest).Exact?
    ensures ValidDeposit(row, Judge(order, UsableOf(recent, account), digest).payment)
            <==> row.memo !in {None, Some("")}
  {
    hide DepositMemo, Judge, UsableOf;
    MemoFits(order.id, digest);
    VerdictIsRight(order, UsableOf(recent, account), digest);
    UsableIsRight(recent, account);
  }

  // No deposit is overlooked: if any recent payment passes the repository's
  // check for the order, the scan picks one, and it passes too.
  lemma NoDepositIsOverlooked(order: Candidate, row: OrderRow, recent: seq<Payment>, account: string, digest: Digest, payment: Payment)
    requires ReadFrom(order, row, account) && row.memo !in {None, Some("")} && row.stroops > 0
    requires payment in recent && ValidDeposit(row, payment)
    ensures var verdict := Judge(order, UsableOf(recent, account), digest);
            verdict.Exact? && verdict.payment in recent && ValidDeposit(row, verdict.payment)
  {
    hide DepositMemo, Judge, UsableOf;
    VerdictIsRight(order, UsableOf(recent, account), digest);
    UsableIsRight(recent, account);
    assert payment in UsableOf(recent, account) && Matches(order, payment, digest);
  }

  // An order is turned down for the first payment that carries its memo: for
  // its amount if that differs, and for its asset otherwise.
  lemma {:induction false} FirstCarrierIsBlamed(order: Candidate, payments: seq<Payment>, digest: Digest)
    requires Judge(order, payments, digest).Wrong?
    ensures var verdict := Judge(order, payments, digest);
            exists i :: 0 <= i < |payments| && Carries(order, payments[i], digest) && verdict.hash == payments[i].hash
                        && (forall j :: 0 <= j < i ==> !Carries(order, payments[j], digest))
                        && (if payments[i].amount != order.amount
                            then verdict.reason == "deposit amount does not match the quoted amount"
                            else verdict.reason == "deposit asset does not match the configured KXLM issuer"
                                 && (payments[i].assetCode != order.code || payments[i].assetIssuer != order.issuer))
  {
    hide Carries, ExpectedMemo;
    if Carries(order, payments[0], digest) {
      assert Carries(order, payments[0], digest) && !Matches(order, payments[0], digest);
      assert payments[0].amount != order.amount || payments[0].assetCode != order.code || payments[0].assetIssuer != order.issuer;
    } else {
      FirstCarrierIsBlamed(order, payments[1..], digest);
      var i :| 0 <= i < |payments| - 1 && Carries(order, payments[1..][i], digest)
               && Judge(order, payments[1..], digest).hash == payments[1..][i].hash
               && (forall j :: 0 <= j < i ==> !Carries(order, payments[1..][j], digest));
      assert payments[i + 1] == payments[1..][i];
      forall j | 0 <= j < i + 1
        ensures !Carries(order, payments[j], digest)
      {
        assert j > 0 ==> payments[j] == payments[1..][j - 1];
      }
    }
  }

  // Orders with different memos are never given the same payment, and orders
  // whose memo was made from a canonical UUID have different memos.
  lemma NoPaymentTwice(a: Candidate, b: Candidate, payments: seq<Payment>, digest: Digest)
    requires Canonical(a.id) && Canonical(b.id) && a.id != b.id
    requires a.memo in {"", DepositMemo(a.id, digest)} && b.memo in {"", DepositMemo(b.id, digest)}
    ensures Judge(a, payments, digest).Exact? && Judge(b, payments, digest).Exact? ==>
              Judge(a, payments, digest).payment != Judge(b, payments, digest).payment
  {
    hide DepositMemo, Canonical, Judge;
    CanonicalMemosDiffer(a.id, b.id, digest);
    VerdictIsRight(a, payments, digest);
    VerdictIsRight(b, payments, digest);
  }

  // A scan keeps the invariant of the tables, however stale its candidates.
  lemma {:induction false} ScanKeepsInvariant(db: Db, orders: seq<Candidate>, payments: seq<Payment>, digest: Digest, now: Time, strict: bool)
    requires Inv(db, strict)
    ensures Kept(db, Scanned(db, orders, payments, digest, now).0, strict)
    ensures Scanned(db, orders, payments, digest, now).1 <= |orders|
    decreases |orders|
  {
    hide Inv, Extends, RecordAssetReceived, Judge, Move;
    if orders == [] {
      Unchanged(db, strict);
    } else {
      match Judge(orders[0], payments, digest) {
        case Exact(payment) =>
          if RecordAssetReceived(db, orders[0].id, payment, now).Committed? {
            var next := RecordAssetReceived(db, orders[0].id, payment, now).db;
            RecordAssetReceivedKept(db, orders[0].id, payment, now, strict);
            ScanKeepsInvariant(next, orders[1..], payments, digest, now, strict);
            ExtendsTransitive(db, next, Scanned(db, orders, payments, digest, now).0, strict);
          } else {
            Unchanged(db, strict);
          }
        case Wrong(_, _) =>
          if RecordAssetInvalid(db, orders[0].id).Committed? {
            var next := RecordAssetInvalid(db, orders[0].id).db;
            DepositClosedKept(db, orders[0].id, "asset.invalid", AssetInvalid, Some("deposit_mismatch"), strict);
            ScanKeepsInvariant(next, orders[1..], payments, digest, now, strict);
            ExtendsTransitive(db, next, Scanned(db, orders, payments, digest, now).0, strict);
          } else {
            Unchanged(db, strict);
          }
        case Unpaid => ScanKeepsInvariant(db, orders[1..], payments, digest, now, strict);
      }
    }
  }

  // The status each verdict leaves an order in.
  predicate Recorded(before: Option<OrderRow>, after: Option<OrderRow>, verdict: Verdict) {
    match verdict
    case Exact(_) =>
      && before.Some? && after.Some?
      && (if before.value.status == AssetPending then after.value.status == RetirementProcessing else after == before)
    case Wrong(_, _) =>
      before.Some? && before.value.status == AssetPending && after.Some? && after.value.status == AssetInvalid
    case Unpaid => after == before
  }

  lemma ReceivedRow(db: Db, id: OrderId, payment: Payment, now: Time)
    requires RecordAssetReceived(db, id, payment, now).Committed?
    ensures var next := RecordAssetReceived(db, id, payment, now).db;
            && Recorded(Get(db.orders, id), Get(next.orders, id), Exact(payment))
            && forall other :: other != id ==> Get(next.orders, other) == Get(db.orders, other)
  {
    hide SlotFree, EventsOf, HashTaken, DepositIntentTaken;
  }

  lemma InvalidRow(db: Db, id: OrderId, hash: Hash, reason: string)
    requires RecordAssetInvalid(db, id).Committed?
    ensures var next := RecordAssetInvalid(db, id).db;
            && Recorded(Get(db.orders, id), Get(next.orders, id), Wrong(hash, reason))
            && forall other :: other != id ==> Get(next.orders, other) == Get(db.orders, other)
  {
    hide SlotFree, EventsOf;
  }

  lemma {:induction false} OthersUntouched(db: Db, orders: seq<Candidate>, payments: seq<Payment>, digest: Digest, now: Time, id: OrderId)
    requires forall i :: 0 <= i < |orders| ==> orders[i].id != id
    ensures Get(Scanned(db, orders, payments, digest, now).0.orders, id) == Get(db.orders, id)
    decreases |orders|
  {
    hide RecordAssetReceived, RecordAssetInvalid, Judge;
    if orders != [] {
      match Judge(orders[0], payments, digest)
      case Exact(payment) =>
        if RecordAssetReceived(db, orders[0].id, payment, now).Committed? {
          ReceivedRow(db, orders[0].id, payment, now);
          OthersUntouched(RecordAssetReceived(db, orders[0].id, payment, now).db, orders[1..], payments, digest, now, id);
        }
      case Wrong(hash, reason) =>
        if RecordAssetInvalid(db, orders[0].id).Committed? {
          InvalidRow(db, orders[0].id, hash, reason);
          OthersUntouched(RecordAssetInvalid(db, orders[0].id).db, orders[1..], payments, digest, now, id);
        }
      case Unpaid => OthersUntouched(db, orders[1..], payments, digest, now, id);
    }
  }

  // A scan that ends without an error has recorded its verdict on every
  // candidate: received, invalid or left as it was.
  lemma {:induction false} ScanRecordsVerdicts(db: Db, orders: seq<Candidate>, payments: seq<Payment>, digest: Digest, now: Time, i: nat)
    requires Scanned(db, orders, payments, digest, now).2.None? && i < |orders|
    requires forall j, k :: 0 <= j < k < |orders| ==> orders[j].id != orders[k].id
    ensures Recorded(Get(db.orders, orders[i].id), Get(Scanned(db, orders, payments, digest, now).0.orders, orders[i].id),
                     Judge(orders[i], payments, digest))
    decreases |orders|
  {
    hide RecordAssetReceived, RecordAssetInvalid, Judge;
    var first, rest := orders[0], orders[1..];
    var verdict := Judge(first, payments, digest);
    var next := db;
    match verdict {
      case Exact(payment) =>
        ReceivedRow(db, first.id, payment, now);
        next := RecordAssetReceived(db, first.id, payment, now).db;
      case Wrong(hash, reason) =>
        InvalidRow(db, first.id, hash, reason);
        next := RecordAssetInvalid(db, first.id).db;
      case Unpaid =>
    }
    if i == 0 {
      OthersUntouched(next, rest, payments, digest, now, first.id);
    } else {
      ScanRecordsVerdicts(next, rest, payments, digest, now, i - 1);
    }
  }
}
