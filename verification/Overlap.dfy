// Why the settlement theorems limit how far runs of one transfer overlap.
//
// MarkSubmitted writes its hash without looking at the row. A run whose lease
// has run out while it is still alive, and the run that leased the job after
// it, may both find no hash. From then on nothing keeps them apart: both send
// a transaction for the one transfer, and the network may apply both.
module Overlap {
  import opened Prelude
  import opened Orders
  import opened Ledger
  import opened Invariant
  import opened Transactions
  import opened Background
  import opened Submission
  import opened Traces
  import opened Outcomes

  // Two hashes the database and the network have never seen.
  ghost predicate Unseen(s: System, first: Hash, second: Hash) {
    && first != second
    && (forall key :: key in s.db.intents ==> s.db.intents[key].hash !in {Some(first), Some(second)})
    && first !in s.net.fate && second !in s.net.fate
  }

  // A settlement job that may be leased now and, attempts permitting, once
  // more; nothing is stored for it yet.
  ghost predicate Ready(s: System, index: nat, now: Time, maxAttempts: nat) {
    && index < |s.db.outbox| && s.db.outbox[index].topic == SettleOnramp
    && Leasable(s.db.outbox[index], SettleOnramp, now, maxAttempts)
    && s.db.outbox[index].attempts + 1 < maxAttempts
    && JobKey(s.db.outbox[index]) in s.db.intents
    && s.db.intents[JobKey(s.db.outbox[index])].hash.None?
  }

  // Two runs of the transfer have both found no hash.
  predicate TwoBuilders(s: System, key: Key, w1: nat, w2: nat) {
    && key.purpose == Transfer && key in s.db.intents && s.db.intents[key].hash.None?
    && w1 != w2 && w1 in s.runs && w2 in s.runs
    && s.runs[w1] == Loaded(key) && s.runs[w2] == Loaded(key)
  }

  // A second run gets there as soon as the first one's lease, of whatever
  // duration, has run out.
  lemma SecondRunLoads(s: System, index: nat, now: Time, duration: Time, maxAttempts: nat, w1: nat, w2: nat) returns (t: System)
    requires Ready(s, index, now, maxAttempts) && duration > 0
    requires w1 !in s.runs && w2 !in s.runs && w1 != w2
    ensures Leads(s, t, Free) && TwoBuilders(t, JobKey(s.db.outbox[index]), w1, w2)
    ensures t.net == s.net && t.db == s.db.(outbox := t.db.outbox)
  {
    hide Leads;
    var later := now + duration + 1;
    var s1 := After(s, Action.Lease(w1, index, "", now, duration, maxAttempts));
    assert s1.db.outbox[index].lease == Some(Ledger.Lease.Lease("", now + duration));
    var s2 := After(s1, Action.Lease(w2, index, "", later, duration, maxAttempts));
    var s3 := After(s2, Load(w1));
    t := After(s3, Load(w2));
    Here(t, Free);
    Prepend(s3, Load(w2), t, Free);
    Prepend(s2, Load(w1), t, Free);
    Prepend(s1, Action.Lease(w2, index, "", later, duration, maxAttempts), t, Free);
    Prepend(s, Action.Lease(w1, index, "", now, duration, maxAttempts), t, Free);
  }

  // A run that found no hash builds its transaction, saves its hash, whatever
  // is stored by then, and sends it.
  lemma BuildAndSend(s: System, w: nat, hash: Hash, overlap: Overlap) returns (t: System)
    requires w in s.runs && s.runs[w].Loaded? && s.runs[w].key.purpose == Transfer && s.runs[w].key in s.db.intents
    requires !HashTaken(s.db, s.runs[w].key, hash)
    ensures Leads(s, t, overlap)
    ensures t.runs == s.runs[w := Sent(s.runs[w].key, hash)]
    ensures t.db == s.db.(intents := t.db.intents) && t.db.intents.Keys == s.db.intents.Keys
    ensures forall key :: key in s.db.intents && key != s.runs[w].key ==> t.db.intents[key] == s.db.intents[key]
    ensures t.db.intents[s.runs[w].key].hash == Some(hash) && t.db.intents[s.runs[w].key].status == Submitted
    ensures t.db.intents[s.runs[w].key].amount == s.db.intents[s.runs[w].key].amount
    ensures t.net == Transmit(s.net, s.runs[w].key, hash)
  {
    hide Leads, HashTaken, Transmit;
    var key := s.runs[w].key;
    var s1 := After(s, Build(w, hash));
    var s2 := After(s1, Save(w));
    t := After(s2, Submit(w));
    assert t.runs == s.runs[w := Sent(key, hash)];
    Here(t, overlap);
    Prepend(s2, Submit(w), t, overlap);
    Prepend(s1, Save(w), t, overlap);
    Prepend(s, Build(w, hash), t, overlap);
  }

  // From every state with two such runs, two transfers can be applied for the
  // one intent: the condition of the settlement theorem is where it breaks.
  lemma TwoBuildersPayTwice(s: System, key: Key, w1: nat, w2: nat, first: Hash, second: Hash) returns (t: System)
    requires TwoBuilders(s, key, w1, w2) && Unseen(s, first, second)
    ensures Leads(s, t, Free)
    ensures AppliedFor(t.net, key, first) && AppliedFor(t.net, key, second)
  {
    hide Leads;
    var one := BuildAndSend(s, w1, first, Free);
    var two := BuildAndSend(one, w2, second, Free);
    var applied := After(two, Resolve(first, Applied));
    t := After(applied, Resolve(second, Applied));
    Here(t, Free);
    Prepend(applied, Resolve(second, Applied), t, Free);
    Prepend(two, Resolve(first, Applied), t, Free);
    Joined(one, two, t, Free);
    Joined(s, one, t, Free);
  }

  // So without the condition the theorem is false of every state with a
  // settlement job to lease.
  lemma OverlappingRunsPayTwice(s: System, index: nat, now: Time, duration: Time, maxAttempts: nat,
                                first: Hash, second: Hash, w1: nat, w2: nat)
    returns (t: System)
    requires Ready(s, index, now, maxAttempts) && Unseen(s, first, second) && duration > 0
    requires w1 !in s.runs && w2 !in s.runs && w1 != w2
    ensures Leads(s, t, Free)
    ensures var key := JobKey(s.db.outbox[index]);
            first != second && AppliedFor(t.net, key, first) && AppliedFor(t.net, key, second)
  {
    hide Leads, JobKey, TwoBuilders, AppliedFor;
    var loaded := SecondRunLoads(s, index, now, duration, maxAttempts, w1, w2);
    t := TwoBuildersPayTwice(loaded, JobKey(s.db.outbox[index]), w1, w2, first, second);
    Joined(s, loaded, t, Free);
  }

  // A run that waits for an answer hears that its transaction was applied, and
  // confirms the transfer.
  lemma PaidAndConfirmed(s: System, w: nat, overlap: Overlap) returns (t: System)
    requires w in s.runs && (s.runs[w].Sent? || s.runs[w].Looking?)
    requires BeingSettled(s.db, s.runs[w].key) && Stored(s.db, s.runs[w].key, s.runs[w].hash)
    requires HasFate(s.net, s.runs[w].hash, InFlight) && s.db.intents[s.runs[w].key].status != Confirmed
    requires Inv(s.db, false) && s.runs[w].key.order in s.db.reservations
    ensures Leads(s, t, overlap)
    ensures t.runs == s.runs - {w} && t.net == s.net.(fate := s.net.fate[s.runs[w].hash := Applied])
    ensures t.db == CompleteSettlement(s.db, s.runs[w].key, 0)
  {
    hide Leads, Inv, SlotFree, CompleteSettlement;
    var key, hash := s.runs[w].key, s.runs[w].hash;
    SettledIsOnramp(s.db, key.order, false);
    SlotsFree(s.db, key.order, false);
    var s1 := After(s, Resolve(hash, Applied));
    var s2 := After(s1, Reply(w, SaysConfirmed));
    t := After(s2, Act(w, 0, 0));
    assert t.runs == s.runs - {w};
    Here(t, overlap);
    Prepend(s2, Act(w, 0, 0), t, overlap);
    Prepend(s1, Reply(w, SaysConfirmed), t, overlap);
    Prepend(s, Resolve(hash, Applied), t, overlap);
  }

  // The late writes of the second run then reach a settled transfer: the order
  // stays completed, but what is stored with it is no longer what was paid.
  lemma LateSaveForgetsThePayment(s: System, key: Key, w1: nat, w2: nat, first: Hash, second: Hash) returns (t: System)
    requires TwoBuilders(s, key, w1, w2) && Unseen(s, first, second)
    requires Inv(s.db, false) && BeingSettled(s.db, key)
    ensures Leads(s, t, Free)
    ensures key.order in t.db.orders && t.db.orders[key.order].status == Completed
    ensures AppliedFor(t.net, key, first) && Stored(t.db, key, second) && t.db.intents[key].status == Submitted
  {
    hide Leads, Inv, Finish, EventsOf, Extends;
    var one := BuildAndSend(s, w1, first, Free);
    StillInv(s.db, one.db, key, first);
    SettledIsOnramp(one.db, key.order, false);
    ReservationOf(one.db, key.order, false);
    var paid := PaidAndConfirmed(one, w1, Free);
    t := BuildAndSend(paid, w2, second, Free);
    Joined(one, paid, t, Free);
    Joined(s, one, t, Free);
  }

  lemma StillInv(db: Db, next: Db, key: Key, hash: Hash)
    requires Inv(db, false) && BeingSettled(db, key) && key in db.intents
    requires next == db.(intents := next.intents) && next.intents.Keys == db.intents.Keys
    requires forall k :: k in db.intents && k != key ==> next.intents[k] == db.intents[k]
    requires next.intents[key].hash == Some(hash) && !HashTaken(db, key, hash) && next.intents[key].amount == db.intents[key].amount
    ensures Inv(next, false) && BeingSettled(next, key)
  {
    hide Inv, Extends, HashTaken;
    WorkKept(db, key, next.intents[key], false);
    assert next == db.(intents := db.intents[key := next.intents[key]]);
  }

  // A run that heard nothing marks its transfer unknown, whatever it has become.
  lemma LateMark(s: System, w: nat, overlap: Overlap) returns (t: System)
    requires w in s.runs && s.runs[w].Answered? && s.runs[w].answer.NoAnswer?
    requires s.runs[w].key.purpose == Transfer && s.runs[w].key in s.db.intents
    ensures Leads(s, t, overlap)
    ensures t.db == s.db.(intents := s.db.intents[s.runs[w].key := s.db.intents[s.runs[w].key].(status := UnknownOutcome)])
  {
    hide Leads;
    t := After(s, Act(w, 0, 0));
    Here(t, overlap);
    Prepend(s, Act(w, 0, 0), t, overlap);
  }

  // With one builder at a time what was paid stays stored, but a transfer's own
  // status still cannot be trusted: a run that heard nothing marks it unknown
  // after another found it paid and settled it.
  lemma LateMarkReopens(s: System, key: Key, hash: Hash, w1: nat, w2: nat, overlap: Overlap) returns (t: System)
    requires Inv(s.db, false) && BeingSettled(s.db, key) && Stored(s.db, key, hash) && HasFate(s.net, hash, InFlight)
    requires s.db.intents[key].status != Confirmed && key.order in s.db.reservations
    requires w1 != w2 && w1 in s.runs && w2 in s.runs
    requires s.runs[w1] == Answered(key, hash, NoAnswer) && s.runs[w2] == Looking(key, hash)
    ensures Leads(s, t, overlap)
    ensures key.order in t.db.orders && t.db.orders[key.order].status == Completed
    ensures Stored(t.db, key, hash) && t.db.intents[key].status == UnknownOutcome
  {
    hide Leads, Inv, EventsOf, Finish;
    var paid := PaidAndConfirmed(s, w2, overlap);
    t := LateMark(paid, w1, overlap);
    Joined(s, paid, t, overlap);
  }

  // One run leases the job and finds no hash.
  lemma FirstRunLoads(s: System, index: nat, now: Time, duration: Time, maxAttempts: nat, w: nat, overlap: Overlap) returns (t: System)
    requires Ready(s, index, now, maxAttempts) && duration > 0 && s.runs == map[]
    ensures Leads(s, t, overlap)
    ensures t.net == s.net && t.db == s.db.(outbox := t.db.outbox) && t.runs == map[w := Loaded(JobKey(s.db.outbox[index]))]
    ensures |t.db.outbox| == |s.db.outbox|
    ensures t.db.outbox[index] == s.db.outbox[index].(lease := Some(Ledger.Lease.Lease("", now + duration)), attempts := s.db.outbox[index].attempts + 1)
  {
    hide Leads;
    var s1 := After(s, Action.Lease(w, index, "", now, duration, maxAttempts));
    t := After(s1, Load(w));
    Here(t, overlap);
    Prepend(s1, Load(w), t, overlap);
    Prepend(s, Action.Lease(w, index, "", now, duration, maxAttempts), t, overlap);
  }

  // It hears nothing, its lease runs out, and another run finds its hash.
  lemma SecondRunLooks(s: System, index: nat, now: Time, duration: Time, maxAttempts: nat, hash: Hash, w1: nat, w2: nat) returns (t: System)
    requires index < |s.db.outbox| && s.db.outbox[index].topic == SettleOnramp && duration > 0
    requires Leasable(s.db.outbox[index], SettleOnramp, now, maxAttempts)
    requires w1 != w2 && s.runs == map[w1 := Sent(JobKey(s.db.outbox[index]), hash)]
    requires Stored(s.db, JobKey(s.db.outbox[index]), hash)
    ensures Leads(s, t, OneBuilder)
    ensures t.net == s.net && t.db == s.db.(outbox := t.db.outbox)
    ensures w1 in t.runs && t.runs[w1] == Answered(JobKey(s.db.outbox[index]), hash, NoAnswer)
    ensures w2 in t.runs && t.runs[w2] == Looking(JobKey(s.db.outbox[index]), hash)
  {
    hide Leads;
    var s1 := After(s, Reply(w1, NoAnswer));
    var s2 := After(s1, Action.Lease(w2, index, "", now, duration, maxAttempts));
    t := After(s2, Load(w2));
    Here(t, OneBuilder);
    Prepend(s2, Load(w2), t, OneBuilder);
    Prepend(s1, Action.Lease(w2, index, "", now, duration, maxAttempts), t, OneBuilder);
    Prepend(s, Reply(w1, NoAnswer), t, OneBuilder);
  }

  const CREATE := OnrampRequest("order", IdemKey(ApiClient("client"), Onramp, "key"), "request", 1, 1, "treasury", None, 0)

  // The tables after an order is created and checked out.
  lemma PendingOrder(overlap: Overlap) returns (t: System)
    ensures Leads(INITIAL, t, overlap) && t.runs == map[] && t.net == INITIAL.net
    ensures t.db.intents == map[] && t.db.outbox == []
    ensures "order" in t.db.orders && t.db.orders["order"].status == PaymentPending && t.db.orders["order"].version == 2
    ensures EventsOf(t.db, "order")
         == [Event(1, "order.created", None, Created), Event(2, "checkout.created", Some(Created), PaymentPending)]
  {
    hide Leads;
    var s1 := After(INITIAL, Elsewhere(OnrampReserve(CREATE, 10_000, 0)));
    assert s1.db.orders["order"].status == Created && EventsOf(s1.db, "order") == [Event(1, "order.created", None, Created)];
    t := After(s1, Elsewhere(CheckoutAttach("order", "provider", None, "QRIS")));
    Here(t, overlap);
    Prepend(s1, Elsewhere(CheckoutAttach("order", "provider", None, "QRIS")), t, overlap);
    Prepend(INITIAL, Elsewhere(OnrampReserve(CREATE, 10_000, 0)), t, overlap);
  }

  // The tables once it is paid for.
  lemma PaidOrder(overlap: Overlap) returns (t: System)
    ensures Leads(INITIAL, t, overlap) && t.runs == map[] && t.net == INITIAL.net
    ensures Ready(t, 0, 0, 2) && Unseen(t, "first", "second")
    ensures JobKey(t.db.outbox[0]) == Key("order", Transfer) && BeingSettled(t.db, Key("order", Transfer))
  {
    hide Leads;
    var s := PendingOrder(overlap);
    t := After(s, Elsewhere(PaymentConfirm("order", "event", 0)));
    Here(t, overlap);
    Prepend(s, Elsewhere(PaymentConfirm("order", "event", 0)), t, overlap);
    Joined(INITIAL, s, t, overlap);
  }

  // Such a state is reached from empty tables in three calls, so the
  // condition of the settlement theorem cannot be dropped, whatever the
  // duration of a lease.
  lemma ExclusionIsNeeded(duration: Time) returns (t: System)
    requires duration > 0
    ensures Reachable(t, Free)
    ensures AppliedFor(t.net, Key("order", Transfer), "first") && AppliedFor(t.net, Key("order", Transfer), "second")
  {
    hide AppliedFor, Ready, Leads;
    var paid := PaidOrder(Free);
    t := OverlappingRunsPayTwice(paid, 0, 0, duration, 2, "first", "second", 0, 1);
    Joined(INITIAL, paid, t, Free);
  }

  // Nor can a completed order be trusted to store what was paid for it.
  lemma PaymentCanBeForgotten(duration: Time) returns (t: System)
    requires duration > 0
    ensures Reachable(t, Free) && "order" in t.db.orders && t.db.orders["order"].status == Completed
    ensures AppliedFor(t.net, Key("order", Transfer), "first") && !Stored(t.db, Key("order", Transfer), "first")
  {
    hide AppliedFor, Leads, Inv, Ready;
    var paid := PaidOrder(Free);
    var loaded := SecondRunLoads(paid, 0, 0, duration, 2, 0, 1);
    Joined(INITIAL, paid, loaded, Free);
    SoundTables(loaded, Free);
    t := LateSaveForgetsThePayment(loaded, Key("order", Transfer), 0, 1, "first", "second");
    Joined(INITIAL, loaded, t, Free);
  }

  // And with one builder at a time, a completed order's transfer need not say
  // that it was confirmed: that takes runs that do not overlap at all.
  lemma SettledTransferCanReopen(duration: Time) returns (t: System)
    requires duration > 0
    ensures Reachable(t, OneBuilder) && "order" in t.db.orders && t.db.orders["order"].status == Completed
    ensures Key("order", Transfer) in t.db.intents && t.db.intents[Key("order", Transfer)].status == UnknownOutcome
  {
    hide Leads, Inv, EventsOf;
    var key := Key("order", Transfer);
    var paid := PaidOrder(OneBuilder);
    var loaded := FirstRunLoads(paid, 0, 0, duration, 2, 0, OneBuilder);
    var sent := BuildAndSend(loaded, 0, "first", OneBuilder);
    var looking := SecondRunLooks(sent, 0, duration + 1, duration, 2, "first", 0, 1);
    Joined(INITIAL, paid, loaded, OneBuilder);
    Joined(INITIAL, loaded, sent, OneBuilder);
    Joined(INITIAL, sent, looking, OneBuilder);
    SoundTables(looking, OneBuilder);
    SettledIsOnramp(looking.db, "order", false);
    ReservationOf(looking.db, "order", false);
    t := LateMarkReopens(looking, key, "first", 0, 1, OneBuilder);
    Joined(INITIAL, looking, t, OneBuilder);
  }

  lemma SoundTables(t: System, overlap: Overlap)
    requires Reachable(t, overlap) && overlap != Never
    ensures Inv(t.db, false)
  {
    hide Inv, NetSound, RunsSound, Leads;
    ReachableSound(t, overlap);
  }
}
