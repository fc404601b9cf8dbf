// What was asked for is what is paid: from the request that makes an order to
// its transfer or payout, along every run of the system.
module Terms {
  import opened Prelude
  import opened Orders
  import opened Ledger
  import opened Invariant
  import opened Transactions
  import opened Background
  import opened Submission
  import opened Traces
  import opened Outcomes
  import opened Effects
  import opened Memos
  import opened Deposits
  import opened Workflows

  // The terms of an order never change, and every amount of money kept for it
  // is one of them.
  ghost predicate KeepsTerms(db: Db, id: OrderId, fiat: int, stroops: int) {
    && id in db.orders && db.orders[id].fiat == fiat && db.orders[id].stroops == stroops
    && (forall purpose: Purpose :: Key(id, purpose) in db.intents ==> db.intents[Key(id, purpose)].amount == stroops)
    && (id in db.payouts ==> db.payouts[id].amount == fiat)
    && (forall provider :: provider in db.checkouts && db.checkouts[provider].order == id ==> db.checkouts[provider].amount == fiat)
  }

  lemma AmountsAreTerms(db: Db, id: OrderId, strict: bool)
    requires Inv(db, strict) && id in db.orders
    ensures KeepsTerms(db, id, db.orders[id].fiat, db.orders[id].stroops)
  {
    hide Orders.Replay, TreasuryOk, HashesUnique, BindingsOk, OutboxOk;
    At(db, id, strict);
    forall purpose: Purpose | Key(id, purpose) in db.intents
      ensures db.intents[Key(id, purpose)].amount == db.orders[id].stroops
    {
      match purpose
      case Transfer =>
      case Deposit =>
      case Retirement =>
    }
  }

  lemma TermsStay(db: Db, next: Db, id: OrderId, strict: bool)
    requires Extends(db, next, strict) && id in db.orders
    ensures id in next.orders && SameTerms(db.orders[id], next.orders[id])
  {
    assert ViewExtends(ViewOf(db, id), ViewOf(next, id), strict);
  }

  lemma TermsKept(s: System, actions: seq<Action>, t: System, id: OrderId, overlap: Overlap)
    requires Reachable(s, overlap) && Trace(s, actions, t, overlap) && id in s.db.orders
    ensures KeepsTerms(t.db, id, s.db.orders[id].fiat, s.db.orders[id].stroops)
    ensures id in t.db.orders && SameTerms(s.db.orders[id], t.db.orders[id])
  {
    hide Inv, NetSound, RunsSound, Trace, Extends, KeepsTerms;
    ReachableSound(s, overlap);
    TraceSound(s, actions, t, overlap);
    TermsStay(s.db, t.db, id, overlap == Never);
    AmountsAreTerms(t.db, id, overlap == Never);
  }

  // A sale that was made has the terms of its request, with the memo made from
  // its id. Whatever happens later, what is deposited for it and retired is
  // exactly the stroops offered, what is paid out exactly the fiat asked, and
  // it is paid out once it is completed.
  lemma SoldAsOffered(s: System, command: OfframpRequest, digest: Digest, actions: seq<Action>, t: System, overlap: Overlap)
    requires Reachable(s, overlap) && command.key.operation == Offramp
    requires CreateSale(s.db, command.(memo := DepositMemo(command.id, digest))).1 == Made(command.id)
    requires Trace(s.(db := CreateSale(s.db, command.(memo := DepositMemo(command.id, digest))).0), actions, t, overlap)
    ensures KeepsTerms(t.db, command.id, command.fiat, command.stroops)
    ensures command.id in t.db.orders && AsOffered(t.db.orders[command.id], command.(memo := DepositMemo(command.id, digest)))
    ensures t.db.orders[command.id].status == Completed <==> command.id in t.db.payouts
  {
    hide Inv, NetSound, RunsSound, Trace, KeepsTerms, DepositMemo, CreateOfframp, Reachable, AsOffered;
    var request := command.(memo := DepositMemo(command.id, digest));
    ReachableSound(s, overlap);
    SaleOutcome(s.db, request, overlap == Never);
    var made := s.(db := CreateOfframp(s.db, request).db);
    Called(s, OfframpCreate(request), overlap);
    TermsKept(made, actions, t, command.id, overlap);
    SameOffer(made.db.orders[command.id], t.db.orders[command.id], request);
    StillReachable(made, actions, t, overlap);
    PaidWhenCompleted(t, command.id, overlap);
  }

  lemma Called(s: System, call: Call, overlap: Overlap)
    requires Reachable(s, overlap) && WellFormed(s.db, call) && Perform(s.db, call).Committed?
    ensures Reachable(s.(db := Perform(s.db, call).db), overlap)
  {
    hide Leads, Perform;
    Extend(INITIAL, s, Elsewhere(call), overlap);
  }

  lemma StillReachable(s: System, actions: seq<Action>, t: System, overlap: Overlap)
    requires Reachable(s, overlap) && Trace(s, actions, t, overlap)
    ensures Reachable(t, overlap)
  {
    hide Trace;
    Joined(INITIAL, s, t, overlap);
  }

  lemma SameOffer(row: OrderRow, later: OrderRow, request: OfframpRequest)
    requires AsOffered(row, request) && SameTerms(row, later)
    ensures AsOffered(later, request)
  {
  }

  lemma PaidWhenCompleted(t: System, id: OrderId, overlap: Overlap)
    requires Reachable(t, overlap) && id in t.db.orders && t.db.orders[id].direction == Offramp
    ensures t.db.orders[id].status == Completed <==> id in t.db.payouts
  {
    hide Trace, EndedOneWay;
    if t.db.orders[id].status == Completed {
      CompletedWasPaid(t, id, 0, overlap);
    }
    if id in t.db.payouts {
      PayoutIsBacked(t, id, id, overlap);
    }
  }

  // A purchase that was admitted has the terms of its request. Whatever
  // happens later, its checkouts ask exactly the fiat requested, evidence that
  // pays one of them pays that amount, and what is transferred for it is
  // exactly the stroops requested.
  lemma BoughtAsRequested(s: System, request: OnrampRequest, observed: int, buffer: int, actions: seq<Action>, t: System,
                          provider: string, checkoutId: string, eventType: string, actual: PaymentState, overlap: Overlap)
    requires Reachable(s, overlap) && request.key.operation == Onramp
    requires ReserveAndCreate(s.db, request, observed, buffer).Committed?
    requires Trace(s.(db := ReserveAndCreate(s.db, request, observed, buffer).db), actions, t, overlap)
    ensures KeepsTerms(t.db, request.id, request.fiat, request.stroops)
    ensures request.id in t.db.orders && AsRequested(t.db.orders[request.id], request)
    ensures actual.reference == request.id && KnownAs(t.db, provider, checkoutId) ==>
              (Pays(t.db.checkouts[provider], checkoutId, eventType, actual) ==> actual.amount == request.fiat)
  {
    hide Inv, NetSound, RunsSound, Trace, ReserveAndCreate, Reachable;
    ReachableSound(s, overlap);
    ReserveOutcome(s.db, request, observed, buffer, overlap == Never);
    var made := s.(db := ReserveAndCreate(s.db, request, observed, buffer).db);
    Called(s, OnrampReserve(request, observed, buffer), overlap);
    TermsKept(made, actions, t, request.id, overlap);
  }
}
