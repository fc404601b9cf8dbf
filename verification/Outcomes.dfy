// What holds in every state the system can reach.
module Outcomes {
  import opened Prelude
  import opened Orders
  import opened Ledger
  import opened Invariant
  import opened Transactions
  import opened Background
  import opened Submission
  import opened SubmissionProof
  import opened Traces

  lemma {:induction false} TraceSound(s: System, actions: seq<Action>, t: System, overlap: Overlap)
    requires Sound(s, overlap) && Trace(s, actions, t, overlap)
    ensures Sound(t, overlap) && Extends(s.db, t.db, overlap == Never)
    decreases |actions|
  {
    hide Inv, NetSound, RunsSound, After, WellFormed, Leasable, HasFate, TrueOfSubmit, TrueOfFind, ViewExtends, ViewOf, BindingsExtend;
    if actions == [] {
      StillSound(s, overlap);
    } else {
      var next := After(s, actions[0]);
      StepSound(s, actions[0], overlap);
      TraceSound(next, actions[1..], t, overlap);
      ExtendsTransitive(s.db, next.db, t.db, overlap == Never);
    }
  }

  lemma ReachableSound(t: System, overlap: Overlap)
    requires Reachable(t, overlap)
    ensures Sound(t, overlap)
  {
    hide Sound, Trace;
    var actions :| Trace(INITIAL, actions, t, overlap);
    InitiallySound(overlap);
    TraceSound(INITIAL, actions, t, overlap);
  }

  // ---------------------------------------------------------------- submissions

  predicate Sends(net: Network, key: Key, hash: Hash) {
    (key, hash) in net.submitted
  }

  predicate AppliedFor(net: Network, key: Key, hash: Hash) {
    Sends(net, key, hash) && HasFate(net, hash, Applied)
  }

  // Whatever runs crash or interleave, at most one of the transactions ever
  // sent for a tracked intent is applied, it is the one stored with the
  // intent, and no other tracked intent shares it. Retirements are tracked
  // however far settlement runs overlap.
  lemma AtMostOneApplied(t: System, key: Key, hash: Hash, other: Key, otherHash: Hash, overlap: Overlap)
    requires Reachable(t, overlap) && Tracked(key, overlap)
    requires AppliedFor(t.net, key, hash) && AppliedFor(t.net, other, otherHash)
    ensures Stored(t.db, key, hash)
    ensures key == other ==> hash == otherHash
    ensures Tracked(other, overlap) && hash == otherHash ==> key == other
  {
    hide ViewOk, ViewOf, TreasuryOk, BindingsOk, CheckoutsOk, OutboxOk, RunsSound, FatesSound, OutcomesTrue, Trace;
    ReachableSound(t, overlap);
  }

  // Something applied for an intent is stored with it.
  lemma AppliedIsStored(t: System, key: Key, hash: Hash, overlap: Overlap)
    requires Sound(t, overlap) && Tracked(key, overlap) && AppliedFor(t.net, key, hash)
    ensures Stored(t.db, key, hash)
  {
    hide Inv, RunsSound, FatesSound, OutcomesTrue;
  }

  // Where settlement runs overlap freely, a transfer may have lost a hash it sent.
  ghost predicate SentForTransfer(net: Network, hash: Hash) {
    exists key: Key :: Sends(net, key, hash) && key.purpose == Transfer
  }

  // An applied hash stored with an intent was sent for that intent, or was
  // sent for, and lost by, a transfer that happens to be the same transaction.
  lemma StoredWasSent(t: System, key: Key, hash: Hash, overlap: Overlap)
    requires Sound(t, overlap) && Tracked(key, overlap) && Stored(t.db, key, hash) && HasFate(t.net, hash, Applied)
    ensures Sends(t.net, key, hash) || (overlap == Free && SentForTransfer(t.net, hash))
  {
    hide ViewOk, ViewOf, TreasuryOk, BindingsOk, CheckoutsOk, OutboxOk, RunsSound, OutcomesTrue;
    var sender: Key :| (sender, hash) in t.net.submitted;
    assert Sends(t.net, sender, hash);
    if Tracked(sender, overlap) {
      assert Stored(t.db, sender, hash);
    }
  }

  // The three ways an intent ends, read off the intent and off the ledger.
  ghost predicate EndedOneWay(t: System, key: Key, overlap: Overlap) {
    key in t.db.intents &&
    var intent := t.db.intents[key];
    || (&& intent.status == Confirmed && intent.hash.Some? && HasFate(t.net, intent.hash.value, Applied)
        && (Sends(t.net, key, intent.hash.value) || (overlap == Free && SentForTransfer(t.net, intent.hash.value)))
        && forall hash :: AppliedFor(t.net, key, hash) ==> intent.hash == Some(hash))
    || (&& intent.status == Failed && intent.hash.Some? && Dead(t.net, intent.hash.value)
        && forall hash :: !AppliedFor(t.net, key, hash))
    || (&& intent.status == Simulated && intent.hash.None? && key.purpose == Retirement
        && forall hash :: !AppliedFor(t.net, key, hash))
  }

  // The intents whose own status says how they ended: retirements always,
  // transfers while their runs do not overlap at all.
  predicate Legible(key: Key, overlap: Overlap) {
    key.purpose == Retirement || (key.purpose == Transfer && overlap == Never)
  }

  lemma SettledView(db: Db, key: Key, strict: bool)
    requires Inv(db, strict) && key in db.intents && key.purpose != Deposit && Settled(db.intents[key])
    requires key.purpose == Transfer ==> strict
    ensures db.intents[key].status == Simulated ==> db.intents[key].hash.None? && key.purpose == Retirement
    ensures db.intents[key].status == Confirmed ==> Succeeded(db, key)
    ensures db.intents[key].status == Failed ==> Refused(db, key)
  {
    hide Replay, TreasuryOk, HashesUnique, BindingsOk, CheckoutsOk, OutboxOk;
    At(db, key.order, strict);
    match key.purpose {
      case Transfer => assert key == Key(key.order, Transfer);
      case Retirement => assert key == Key(key.order, Retirement);
    }
  }

  lemma SettledEndedOneWay(t: System, key: Key, overlap: Overlap)
    requires Sound(t, overlap) && key in t.db.intents && Legible(key, overlap) && Settled(t.db.intents[key])
    ensures EndedOneWay(t, key, overlap)
  {
    hide Inv, SubmittedSound, FatesSound, RunsSound, Succeeded, Refused;
    var intent := t.db.intents[key];
    SettledView(t.db, key, overlap == Never);
    assert OutcomeTrue(t.db, t.net, key);
    if intent.status == Confirmed {
      StoredWasSent(t, key, intent.hash.value, overlap);
    }
    forall hash | AppliedFor(t.net, key, hash)
      ensures Stored(t.db, key, hash)
    {
      AppliedIsStored(t, key, hash, overlap);
    }
  }

  // A run of any workers ends an intent at most once: whatever happens after
  // an intent is settled, its row stays as it is and the ledger agrees with it.
  lemma SettledForever(s: System, actions: seq<Action>, t: System, key: Key, overlap: Overlap)
    requires Reachable(s, overlap) && Trace(s, actions, t, overlap)
    requires key in s.db.intents && Legible(key, overlap) && Settled(s.db.intents[key])
    ensures key in t.db.intents && t.db.intents[key] == s.db.intents[key]
    ensures EndedOneWay(s, key, overlap) && EndedOneWay(t, key, overlap)
  {
    hide Sound, EndedOneWay, Trace, Extends;
    ReachableSound(s, overlap);
    TraceSound(s, actions, t, overlap);
    IntentKeeps(s.db, t.db, key, overlap == Never);
    SettledEndedOneWay(s, key, overlap);
    SettledEndedOneWay(t, key, overlap);
  }

  lemma IntentKeeps(db: Db, next: Db, key: Key, strict: bool)
    requires Extends(db, next, strict) && key in db.intents && Settled(db.intents[key])
    requires key.purpose == Transfer ==> strict
    ensures key in next.intents && next.intents[key] == db.intents[key]
  {
    assert ViewExtends(ViewOf(db, key.order), ViewOf(next, key.order), strict);
    match key.purpose {
      case Transfer => assert key == Key(key.order, Transfer);
      case Deposit => assert key == Key(key.order, Deposit);
      case Retirement => assert key == Key(key.order, Retirement);
    }
  }

  // Which intent an order's status stands for, and how far it has come.
  lemma StatusOfIntent(db: Db, id: OrderId, strict: bool)
    requires Inv(db, strict) && id in db.orders
    ensures var transfer, retirement := Key(id, Transfer), Key(id, Retirement);
            match db.orders[id].direction
            case Onramp =>
              && (transfer in db.intents <==> db.orders[id].status in {StellarProcessing, Completed, StellarFailed})
              && (strict && transfer in db.intents ==>
                    && (db.orders[id].status == Completed <==> db.intents[transfer].status == Confirmed)
                    && (db.orders[id].status == StellarFailed <==> db.intents[transfer].status == Failed))
            case Offramp =>
              && (retirement in db.intents <==>
                    db.orders[id].status in {RetirementProcessing, WithdrawalProcessing, Completed, RetirementFailed})
              && (retirement in db.intents ==>
                    && (db.orders[id].status in {WithdrawalProcessing, Completed} <==>
                          db.intents[retirement].status in {Confirmed, Simulated})
                    && (db.orders[id].status == RetirementFailed <==> db.intents[retirement].status == Failed))
  {
    hide Replay, TreasuryOk, HashesUnique, BindingsOk, CheckoutsOk, OutboxOk;
    At(db, id, strict);
  }

  // On-ramp, as long as never two runs of one transfer have both found no hash
  // and saved none yet: a completed order had exactly its stored hash applied;
  // one that failed on Stellar had nothing applied; and one not yet or never
  // paid for had nothing sent.
  lemma SettlementIsCrashSafe(t: System, id: OrderId, overlap: Overlap)
    requires Reachable(t, overlap) && overlap != Free && id in t.db.orders && t.db.orders[id].direction == Onramp
    ensures var key := Key(id, Transfer);
            match t.db.orders[id].status
            case Completed =>
              && key in t.db.intents && t.db.intents[key].hash.Some?
              && forall hash :: AppliedFor(t.net, key, hash) <==> t.db.intents[key].hash == Some(hash)
            case StellarFailed => forall hash :: !AppliedFor(t.net, key, hash)
            case StellarProcessing => forall hash :: AppliedFor(t.net, key, hash) ==> Stored(t.db, key, hash)
            case _ => forall hash :: !Sends(t.net, key, hash)
  {
    hide Inv, FatesSound, RunsSound, Trace;
    ReachableSound(t, overlap);
    var key := Key(id, Transfer);
    StatusOfIntent(t.db, id, overlap == Never);
    if key in t.db.intents {
      assert OutcomeTrue(t.db, t.net, key);
      if t.db.orders[id].status == Completed {
        StoredWasSent(t, key, t.db.intents[key].hash.value, overlap);
      }
    }
  }

  // Off-ramp, however far anything overlaps: a withdrawal follows a retirement
  // applied exactly once or a simulation with nothing applied; a failed
  // retirement had nothing applied.
  lemma RetirementIsAtMostOnce(t: System, id: OrderId, overlap: Overlap)
    requires Reachable(t, overlap) && id in t.db.orders && t.db.orders[id].direction == Offramp
    ensures var key := Key(id, Retirement);
            match t.db.orders[id].status
            case WithdrawalProcessing => EndedOneWay(t, key, overlap) && t.db.intents[key].status in {Confirmed, Simulated}
            case Completed => EndedOneWay(t, key, overlap) && t.db.intents[key].status in {Confirmed, Simulated}
            case RetirementFailed => EndedOneWay(t, key, overlap) && t.db.intents[key].status == Failed
            case RetirementProcessing => forall hash :: AppliedFor(t.net, key, hash) ==> Stored(t.db, key, hash)
            case _ => forall hash :: !Sends(t.net, key, hash)
  {
    hide Inv, FatesSound, OutcomesTrue, RunsSound, EndedOneWay, Trace;
    ReachableSound(t, overlap);
    var key := Key(id, Retirement);
    StatusOfIntent(t.db, id, overlap == Never);
    if key in t.db.intents && Settled(t.db.intents[key]) {
      SettledEndedOneWay(t, key, overlap);
    }
  }

  // ---------------------------------------------------------------- orders

  // No lost or orphaned work: an order has one open job exactly in the stage
  // that the job's topic carries out, and every message names an order.
  lemma WorkIsNeverLost(t: System, id: OrderId, overlap: Overlap)
    requires Reachable(t, overlap)
    ensures Open(t.db.outbox, SettleOnramp, id)
         == if id in t.db.orders && t.db.orders[id].status == StellarProcessing then 1 else 0
    ensures Open(t.db.outbox, RetireOfframp, id)
         == if id in t.db.orders && t.db.orders[id].status == RetirementProcessing then 1 else 0
    ensures Open(t.db.outbox, SimulatePayout, id)
         == if id in t.db.orders && t.db.orders[id].status == WithdrawalProcessing then 1 else 0
    ensures forall i :: 0 <= i < |t.db.outbox| ==> t.db.outbox[i].order in t.db.orders
  {
    hide Inv, NetSound, RunsSound, Open;
    ReachableSound(t, overlap);
    OpenJobs(t.db, id, overlap == Never);
    NoOrphans(t.db, overlap == Never);
  }

  lemma OpenJobs(db: Db, id: OrderId, strict: bool)
    requires Inv(db, strict)
    ensures JobsOf(db.outbox, id)
         == Jobs(if id in db.orders && db.orders[id].status == StellarProcessing then 1 else 0,
                 if id in db.orders && db.orders[id].status == RetirementProcessing then 1 else 0,
                 if id in db.orders && db.orders[id].status == WithdrawalProcessing then 1 else 0)
  {
    hide Replay, TreasuryOk, HashesUnique, BindingsOk, CheckoutsOk, OutboxOk, JobsOf;
    At(db, id, strict);
  }

  lemma NoOrphans(db: Db, strict: bool)
    requires Inv(db, strict)
    ensures forall i :: 0 <= i < |db.outbox| ==> db.outbox[i].order in db.orders
  {
    hide ViewOk, ViewOf, TreasuryOk, HashesUnique, BindingsOk, CheckoutsOk;
    forall i | 0 <= i < |db.outbox|
      ensures db.outbox[i].order in db.orders
    {
      assert Belongs(db, db.outbox[i]);
    }
  }

  // No message was leased more often than this since it was queued or requeued.
  ghost predicate Capped(outbox: seq<Message>, limit: nat) {
    forall i :: 0 <= i < |outbox| ==> outbox[i].attempts <= limit
  }

  predicate Within(action: Action, limit: nat) {
    action.Lease? || action.LeasePayout? ==> action.maxAttempts <= limit
  }

  lemma CallCapped(db: Db, call: Call, limit: nat)
    requires Capped(db.outbox, limit) && Perform(db, call).Committed?
    ensures Capped(Perform(db, call).db.outbox, limit)
  {
    hide SlotFree, EventsOf, HashTaken, DepositIntentTaken;
  }

  // A transaction leases nothing.
  ghost predicate LeasesNone(db: Db, result: Result) {
    forall limit: nat :: result.Committed? && Capped(db.outbox, limit) ==> Capped(result.db.outbox, limit)
  }

  lemma WritesLeaseNothing(db: Db, key: Key, hash: Hash, at: Time)
    ensures LeasesNone(db, SaveIntent(db, key, hash)) && LeasesNone(db, ResetIntent(db, key, hash))
    ensures LeasesNone(db, MarkUnknown(db, key)) && LeasesNone(db, RetryLater(db, key, at))
  {
    hide HashTaken;
  }

  lemma EndsLeaseNothing(db: Db, key: Key, hash: Hash, ledgerAt: Time, now: Time)
    ensures LeasesNone(db, ConfirmIntent(db, key, hash, ledgerAt, now)) && LeasesNone(db, RefuseIntent(db, key))
    ensures LeasesNone(db, SimulateRetirement(db, key, now))
  {
    hide SlotFree, EventsOf;
  }

  lemma RunCapped(s: System, action: Action, limit: nat)
    requires Capped(s.db.outbox, limit) && Enabled(s, action, Free) && (action.Save? || action.Act? || action.Simulate?)
    ensures Capped(After(s, action).db.outbox, limit)
  {
    hide SaveIntent, ResetIntent, MarkUnknown, RetryLater, ConfirmIntent, RefuseIntent, SimulateRetirement, Capped;
    var run := s.runs[action.worker];
    match action
    case Save(_) => WritesLeaseNothing(s.db, run.key, run.hash, 0);
    case Simulate(_, at) => EndsLeaseNothing(s.db, run.key, "", 0, at);
    case Act(_, ledgerAt, at) =>
      var hash := if run.BackingOff? then "" else run.hash;
      WritesLeaseNothing(s.db, run.key, hash, at);
      EndsLeaseNothing(s.db, run.key, hash, ledgerAt, at);
  }

  lemma StepCapped(s: System, action: Action, limit: nat)
    requires Capped(s.db.outbox, limit) && Enabled(s, action, Free) && Within(action, limit)
    ensures Capped(After(s, action).db.outbox, limit)
  {
    hide Perform, WellFormed, DoSave, DoAct, SimulateRetirement;
    if action.Elsewhere? {
      if Perform(s.db, action.call).Committed? {
        CallCapped(s.db, action.call, limit);
      }
    } else if action.Save? || action.Act? || action.Simulate? {
      RunCapped(s, action, limit);
    }
  }

  // No job is leased more often than the largest limit any worker leases with;
  // a requeue starts the count again.
  lemma {:induction false} AttemptsAreCapped(s: System, actions: seq<Action>, t: System, overlap: Overlap, limit: nat)
    requires Trace(s, actions, t, overlap) && forall k :: 0 <= k < |actions| ==> Within(actions[k], limit)
    requires Capped(s.db.outbox, limit)
    ensures Capped(t.db.outbox, limit)
    decreases |actions|
  {
    hide After, Capped, Within, HasFate, TrueOfSubmit, TrueOfFind, WellFormed;
    if actions != [] {
      assert Within(actions[0], limit) && Enabled(s, actions[0], Free);
      StepCapped(s, actions[0], limit);
      AttemptsAreCapped(After(s, actions[0]), actions[1..], t, overlap, limit);
    }
  }

  // Event sourcing: the log is sound, and replaying it through the order
  // machine yields the row's status and version.
  lemma LogReplaysToRow(t: System, id: OrderId, overlap: Overlap)
    requires Reachable(t, overlap) && id in t.db.orders
    ensures Chained(EventsOf(t.db, id))
    ensures Replay(EventsOf(t.db, id)) == Some(Aggregate(t.db.orders[id].status, t.db.orders[id].version))
    ensures |EventsOf(t.db, id)| == t.db.orders[id].version <= 6
  {
    ReachableSound(t, overlap);
    hide TreasuryOk, HashesUnique, BindingsOk, CheckoutsOk, OutboxOk, NetSound, RunsSound, OnrampOk, OfframpOk;
    At(t.db, id, overlap == Never);
    ReplayIffChained(EventsOf(t.db, id));
    LogsAreShortAndAcyclic(EventsOf(t.db, id));
  }

  // Logs are append-only, so an order in a final status stays there.
  lemma FinalOrdersStay(s: System, actions: seq<Action>, t: System, id: OrderId, overlap: Overlap)
    requires Reachable(s, overlap) && Trace(s, actions, t, overlap) && id in s.db.orders
    ensures id in t.db.orders && EventsOf(s.db, id) <= EventsOf(t.db, id)
    ensures Final(s.db.orders[id].status) ==>
              t.db.orders[id].status == s.db.orders[id].status && t.db.orders[id].version == s.db.orders[id].version
  {
    ReachableSound(s, overlap);
    TraceSound(s, actions, t, overlap);
    hide TreasuryOk, HashesUnique, BindingsOk, CheckoutsOk, OutboxOk, NetSound, RunsSound, OnrampOk, OfframpOk, Trace;
    At(s.db, id, overlap == Never);
    At(t.db, id, overlap == Never);
    assert ViewExtends(ViewOf(s.db, id), ViewOf(t.db, id), overlap == Never);
    if Final(s.db.orders[id].status) {
      FinalStatusEndsTheLog(EventsOf(s.db, id), EventsOf(t.db, id));
    }
  }

  // ---------------------------------------------------------------- treasury

  // Conservation: the counter is the sum of the reservations still reserved,
  // never negative, and covered with the buffer by the balance last observed.
  lemma TreasuryIsConserved(t: System, overlap: Overlap)
    requires Reachable(t, overlap)
    ensures t.db.treasury.None? ==> t.db.reservations == map[]
    ensures t.db.treasury.Some? ==>
              && t.db.treasury.value.reserved == SumReserved(t.db.reservations) >= 0
              && t.db.treasury.value.observed - t.db.treasury.value.reserved - t.db.treasury.value.buffer >= 0
  {
    ReachableSound(t, overlap);
    forall id | id in t.db.reservations
      ensures Held(t.db.reservations[id]) >= 0
    {
      ReservationHeld(t.db, id, overlap == Never);
    }
    SumNonNegative(t.db.reservations);
    hide ViewOk, ViewOf, HashesUnique, BindingsOk, CheckoutsOk, OutboxOk, NetSound, RunsSound;
  }

  lemma ReservationHeld(db: Db, id: OrderId, strict: bool)
    requires Inv(db, strict) && id in db.reservations
    ensures id in db.orders && db.orders[id].direction == Onramp
    ensures db.reservations[id].amount == KXLM_ISSUE_FEE_RESERVE
  {
    hide Replay, TreasuryOk, HashesUnique, BindingsOk, CheckoutsOk, OutboxOk;
    At(db, id, strict);
  }

  lemma {:induction false} SumNonNegative(reservations: map<OrderId, Reservation>)
    requires forall id :: id in reservations ==> Held(reservations[id]) >= 0
    ensures SumReserved(reservations) >= 0
    decreases |reservations|
  {
    if reservations != map[] {
      var id :| id in reservations;
      SumReservedSplit(reservations, id);
      SumNonNegative(reservations - {id});
    }
  }

  // Release and settlement exclude each other.
  lemma ReservationFollowsStatus(t: System, id: OrderId, overlap: Overlap)
    requires Reachable(t, overlap)
    ensures id in t.db.reservations <==> id in t.db.orders && t.db.orders[id].direction == Onramp
    ensures id in t.db.reservations ==>
              && (t.db.reservations[id].status == Reserved <==>
                    t.db.orders[id].status in {Created, PaymentPending, StellarProcessing, StellarFailed})
              && (t.db.reservations[id].status == Released <==> t.db.orders[id].status in {PaymentFailed, Expired})
              && (t.db.reservations[id].status == Consumed <==> t.db.orders[id].status == Completed)
              && (t.db.reservations[id].status == Released ==> Key(id, Transfer) !in t.db.intents)
  {
    ReachableSound(t, overlap);
    hide Replay, TreasuryOk, HashesUnique, BindingsOk, CheckoutsOk, OutboxOk, NetSound, RunsSound;
    At(t.db, id, overlap == Never);
  }

  // Once released, in every later state: never a transfer.
  lemma ReleasedNeverTransfers(s: System, actions: seq<Action>, t: System, id: OrderId, overlap: Overlap)
    requires Reachable(s, overlap) && Trace(s, actions, t, overlap)
    requires id in s.db.reservations && s.db.reservations[id].status == Released
    ensures Key(id, Transfer) !in t.db.intents
    ensures forall hash :: !Sends(t.net, Key(id, Transfer), hash)
  {
    hide Inv, Extends, Trace, FatesSound, OutcomesTrue, RunsSound;
    ReachableSound(s, overlap);
    TraceSound(s, actions, t, overlap);
    ReleasedHasNoTransfer(s.db, t.db, id, overlap == Never);
  }

  lemma ReleasedHasNoTransfer(db: Db, next: Db, id: OrderId, strict: bool)
    requires Extends(db, next, strict) && Inv(next, strict) && id in db.reservations && db.reservations[id].status == Released
    ensures Key(id, Transfer) !in next.intents
  {
    hide Replay, TreasuryOk, HashesUnique, BindingsOk, CheckoutsOk, OutboxOk;
    assert ViewExtends(ViewOf(db, id), ViewOf(next, id), strict);
    At(next, id, strict);
  }

  // ---------------------------------------------------------------- payouts

  // A completed off-ramp order has one payout, of its fiat amount, behind
  // which stand a deposit of exactly its stroops that backs no other order and
  // a retirement applied once or simulated.
  lemma PayoutIsBacked(t: System, id: OrderId, other: OrderId, overlap: Overlap)
    requires Reachable(t, overlap) && id in t.db.payouts
    ensures id in t.db.orders && t.db.orders[id].direction == Offramp && t.db.orders[id].status == Completed
    ensures t.db.payouts[id].amount == t.db.orders[id].fiat
    ensures var deposit := Key(id, Deposit);
            && deposit in t.db.intents && t.db.intents[deposit].hash.Some?
            && t.db.intents[deposit].status == Confirmed && t.db.intents[deposit].amount == t.db.orders[id].stroops
            && (Key(other, Deposit) in t.db.intents && other != id ==>
                  t.db.intents[Key(other, Deposit)].hash != t.db.intents[deposit].hash)
    ensures EndedOneWay(t, Key(id, Retirement), overlap) && t.db.intents[Key(id, Retirement)].status in {Confirmed, Simulated}
  {
    hide EndedOneWay;
    ReachableSound(t, overlap);
    PayoutView(t.db, id, overlap == Never);
    RetirementIsAtMostOnce(t, id, overlap);
    hide ViewOk, ViewOf, TreasuryOk, BindingsOk, CheckoutsOk, OutboxOk, NetSound, RunsSound;
  }

  lemma PayoutView(db: Db, id: OrderId, strict: bool)
    requires Inv(db, strict) && id in db.payouts
    ensures id in db.orders && db.orders[id].direction == Offramp && db.orders[id].status == Completed
    ensures db.payouts[id].amount == db.orders[id].fiat
    ensures Key(id, Deposit) in db.intents
    ensures var deposit := db.intents[Key(id, Deposit)];
            deposit.hash.Some? && deposit.status == Confirmed && deposit.amount == db.orders[id].stroops
  {
    hide Replay, TreasuryOk, HashesUnique, BindingsOk, CheckoutsOk, OutboxOk;
    At(db, id, strict);
  }

  // Conversely every completed off-ramp order was paid out, and delivering its
  // payout job again changes nothing.
  lemma CompletedWasPaid(t: System, id: OrderId, index: nat, overlap: Overlap)
    requires Reachable(t, overlap) && id in t.db.orders
    requires t.db.orders[id].direction == Offramp && t.db.orders[id].status == Completed
    ensures id in t.db.payouts
    ensures PayoutJob(t.db, id, index) ==> CompletePayout(t.db, id, index) == Committed(t.db)
  {
    ReachableSound(t, overlap);
    if PayoutJob(t.db, id, index) {
      RepeatedPayout(t.db, id, index, overlap == Never);
    }
    hide Replay, TreasuryOk, HashesUnique, BindingsOk, CheckoutsOk, OutboxOk, NetSound, RunsSound, CompletePayout;
    At(t.db, id, overlap == Never);
  }

  // ---------------------------------------------------------------- idempotency

  // One (owner, operation, key) is bound to at most one order for ever, and
  // two keys never share an order.
  lemma BoundForever(s: System, actions: seq<Action>, t: System, key: IdemKey, other: IdemKey, overlap: Overlap)
    requires Reachable(s, overlap) && Trace(s, actions, t, overlap) && key in s.db.idempotency
    ensures key in t.db.idempotency && t.db.idempotency[key] == s.db.idempotency[key]
    ensures s.db.idempotency[key].order in t.db.orders
    ensures other in t.db.idempotency && other != key ==> t.db.idempotency[other].order != t.db.idempotency[key].order
  {
    ReachableSound(s, overlap);
    TraceSound(s, actions, t, overlap);
    hide Trace, ViewOk, ViewOf, ViewExtends, TreasuryOk, HashesUnique, CheckoutsOk, OutboxOk, NetSound, RunsSound;
  }
}
