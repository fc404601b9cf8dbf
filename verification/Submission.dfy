// The two submission protocols against an unreliable ledger.
//
// A system is the money tables, the Stellar network and any number of runs of
// SettlementUsecase.RunOnce (transfers) and RetireWorker.RunOnce
// (retirements), each a program counter. Runs interleave with each other and
// with every other call, may crash between any two steps, and act on answers
// that may be old by the time they act.
module Submission {
  import opened Prelude
  import opened Orders
  import opened Ledger
  import opened Invariant
  import opened Transactions
  import opened Background

  // What becomes of a transaction once it has been sent. Rejected: it was
  // turned down before application and never reaches the ledger.
  // FailedOnLedger: the ledger records that it did not succeed.
  datatype Fate = InFlight | Applied | FailedOnLedger | Rejected

  // `submitted` remembers which intent sent which hash.
  datatype Network = Network(submitted: set<(Key, Hash)>, fate: map<Hash, Fate>)

  // An answer to Submit or FindByHash; NoAnswer is an error or a timeout.
  datatype Answer = SaysConfirmed | SaysPermanent | SaysRetryable | SaysUnknown | SaysPending | NoAnswer

  predicate HasFate(net: Network, hash: Hash, fate: Fate) {
    hash in net.fate && net.fate[hash] == fate
  }

  predicate Dead(net: Network, hash: Hash) {
    HasFate(net, hash, Rejected) || HasFate(net, hash, FailedOnLedger)
  }

  // The assumptions on the network: positive answers are true when given.
  predicate TrueOfSubmit(net: Network, hash: Hash, answer: Answer) {
    match answer
    case SaysConfirmed => HasFate(net, hash, Applied)
    case SaysPermanent => Dead(net, hash)
    case SaysRetryable => HasFate(net, hash, Rejected)
    case _ => true
  }

  predicate TrueOfFind(net: Network, hash: Hash, answer: Answer) {
    match answer
    case SaysConfirmed => HasFate(net, hash, Applied)
    case SaysPermanent => HasFate(net, hash, FailedOnLedger)
    case _ => true
  }

  datatype Run =
    | Leased(key: Key)
    | Loaded(key: Key)
    | Built(key: Key, hash: Hash)
    | Reloading(key: Key)
    | Saved(key: Key, hash: Hash)
    | Sent(key: Key, hash: Hash)
    | Answered(key: Key, hash: Hash, answer: Answer)
    | Looking(key: Key, hash: Hash)
    | Found(key: Key, hash: Hash, answer: Answer)
    | BackingOff(key: Key)

  datatype System = System(db: Db, net: Network, runs: map<nat, Run>)

  const INITIAL := System(EMPTY, Network({}, map[]), map[])

  // How settlement runs of one transfer may overlap: never; freely, but with
  // at most one of them between loading an intent without a hash and saving
  // one; or freely.
  datatype Overlap = Never | OneBuilder | Free

  datatype Action =
    | Elsewhere(call: Call)
    | LeasePayout(index: nat, owner: string, now: Time, duration: Time, maxAttempts: nat)
    | Lease(worker: nat, index: nat, owner: string, now: Time, duration: Time, maxAttempts: nat)
    | Load(worker: nat)
    | Build(worker: nat, hash: Hash)
    | Abandon(worker: nat)
    | Simulate(worker: nat, at: Time)
    | Save(worker: nat)
    | Submit(worker: nat)
    | Reply(worker: nat, answer: Answer)
    | Act(worker: nat, ledgerAt: Time, at: Time)
    | Crash(worker: nat)
    | Resolve(hash: Hash, fate: Fate)

  // ---------------------------------------------------------------- steps

  function Goto(s: System, worker: nat, run: Run): System {
    s.(runs := s.runs[worker := run])
  }

  function End(s: System, worker: nat): System {
    s.(runs := s.runs - {worker})
  }

  // Keeps what a transaction committed; a rollback changes nothing.
  function Keep(s: System, result: Result): System {
    match result
    case Committed(db) => s.(db := db)
    case RolledBack(_) => s
  }

  function JobKey(message: Message): Key {
    Key(message.order, if message.topic == SettleOnramp then Transfer else Retirement)
  }

  predicate Exclusive(s: System, key: Key) {
    key.purpose == Transfer ==> forall w :: w in s.runs ==> s.runs[w].key != key
  }

  // A run that found no hash and has saved none yet.
  predicate IsBuilding(run: Run) {
    run.Loaded? || run.Built?
  }

  // Loading would make `w` the second run to build for a transfer.
  predicate SecondBuilder(s: System, w: nat)
    requires w in s.runs && s.runs[w].key in s.db.intents
  {
    && s.runs[w].key.purpose == Transfer && s.db.intents[s.runs[w].key].hash.None?
    && exists v :: v in s.runs && v != w && s.runs[v].key == s.runs[w].key && IsBuilding(s.runs[v])
  }

  // A lease lasts: the configuration insists on a positive duration.
  predicate MayLease(db: Db, index: nat, now: Time, duration: Time, maxAttempts: nat) {
    && index < |db.outbox| && duration > 0
    && Leasable(db.outbox[index], db.outbox[index].topic, now, maxAttempts)
  }

  predicate Enabled(s: System, action: Action, overlap: Overlap) {
    match action
    case Elsewhere(call) => WellFormed(s.db, call)
    case LeasePayout(index, _, now, duration, maxAttempts) =>
      MayLease(s.db, index, now, duration, maxAttempts) && s.db.outbox[index].topic == SimulatePayout
    case Lease(w, index, _, now, duration, maxAttempts) =>
      && w !in s.runs && MayLease(s.db, index, now, duration, maxAttempts)
      && s.db.outbox[index].topic != SimulatePayout
      && (overlap == Never ==> Exclusive(s, JobKey(s.db.outbox[index])))
    case Load(w) =>
      && w in s.runs && (s.runs[w].Leased? || s.runs[w].Reloading?) && s.runs[w].key in s.db.intents
      && (overlap == OneBuilder ==> !SecondBuilder(s, w))
    case Build(w, _) => w in s.runs && s.runs[w].Loaded?
    case Abandon(w) => w in s.runs && s.runs[w].Loaded?
    case Simulate(w, _) => w in s.runs && s.runs[w].Loaded? && s.runs[w].key.purpose == Retirement
    case Save(w) => w in s.runs && s.runs[w].Built?
    case Submit(w) => w in s.runs && s.runs[w].Saved?
    case Reply(w, answer) =>
      && w in s.runs
      && ((s.runs[w].Sent? && TrueOfSubmit(s.net, s.runs[w].hash, answer))
          || (s.runs[w].Looking? && TrueOfFind(s.net, s.runs[w].hash, answer)))
    case Act(w, _, _) => w in s.runs && (s.runs[w].Answered? || s.runs[w].Found? || s.runs[w].BackingOff?)
    case Crash(w) => w in s.runs
    case Resolve(hash, fate) => HasFate(s.net, hash, InFlight)
  }

  function DoLoad(s: System, w: nat): System
    requires w in s.runs && s.runs[w].key in s.db.intents
  {
    var key := s.runs[w].key;
    match s.db.intents[key].hash
    case Some(hash) => Goto(s, w, Looking(key, hash))
    case None => if s.runs[w].Reloading? then End(s, w) else Goto(s, w, Loaded(key))
  }

  function SaveIntent(db: Db, key: Key, hash: Hash): Result {
    if key.purpose == Transfer then MarkSubmitted(db, key, hash) else SaveRetirementHash(db, key, hash)
  }

  function DoSave(s: System, w: nat): System
    requires w in s.runs && s.runs[w].Built?
  {
    var key, hash := s.runs[w].key, s.runs[w].hash;
    match SaveIntent(s.db, key, hash)
    case Committed(db) => Goto(s.(db := db), w, Saved(key, hash))
    case RolledBack(error) =>
      if error == HashAlreadySaved then Goto(s, w, Reloading(key)) else End(s, w)
  }

  function DoSubmit(s: System, w: nat): System
    requires w in s.runs && s.runs[w].Saved?
  {
    var key, hash := s.runs[w].key, s.runs[w].hash;
    Goto(s.(net := Transmit(s.net, key, hash)), w, Sent(key, hash))
  }

  // A hash sent again keeps the fate it has.
  function Transmit(net: Network, key: Key, hash: Hash): Network {
    Network(net.submitted + {(key, hash)}, if hash in net.fate then net.fate else net.fate[hash := InFlight])
  }

  function DoReply(s: System, w: nat, answer: Answer): System
    requires w in s.runs && (s.runs[w].Sent? || s.runs[w].Looking?)
  {
    var key, hash := s.runs[w].key, s.runs[w].hash;
    Goto(s, w, if s.runs[w].Sent? then Answered(key, hash, answer) else Found(key, hash, answer))
  }

  function ConfirmIntent(db: Db, key: Key, hash: Hash, ledgerAt: Time, now: Time): Result {
    if key.purpose == Transfer then Confirm(db, key, hash, ledgerAt) else ConfirmRetirement(db, key, hash, ledgerAt, now)
  }

  function RefuseIntent(db: Db, key: Key): Result {
    if key.purpose == Transfer then FailPermanent(db, key) else FailRetirement(db, key)
  }

  function ResetIntent(db: Db, key: Key, hash: Hash): Result {
    if key.purpose == Transfer then ResetSubmitted(db, key) else ResetRetirementHash(db, key, hash)
  }

  // Only settlement reschedules its job; a retirement waits for its lease to expire.
  function BackOff(s: System, w: nat, key: Key): System {
    if key.purpose == Transfer then Goto(s, w, BackingOff(key)) else End(s, w)
  }

  function DoAct(s: System, w: nat, ledgerAt: Time, now: Time): System
    requires w in s.runs && (s.runs[w].Answered? || s.runs[w].Found? || s.runs[w].BackingOff?)
  {
    var run := s.runs[w];
    var key := run.key;
    if run.BackingOff? then End(Keep(s, RetryLater(s.db, key, now)), w)
    else
      match run.answer
      case SaysConfirmed => End(Keep(s, ConfirmIntent(s.db, key, run.hash, ledgerAt, now)), w)
      case SaysPermanent => End(Keep(s, RefuseIntent(s.db, key)), w)
      case SaysPending => BackOff(s, w, key)
      case SaysRetryable =>
        if run.Found? then BackOff(s, w, key)
        else BackOff(Keep(s, ResetIntent(s.db, key, run.hash)), w, key)
      case _ =>
        if run.Found? then BackOff(s, w, key)
        else if key.purpose == Transfer then Goto(Keep(s, MarkUnknown(s.db, key)), w, Looking(key, run.hash))
        else Goto(s, w, Looking(key, run.hash))
  }

  function After(s: System, action: Action): System
    requires Enabled(s, action, Free)
  {
    match action
    case Elsewhere(call) => Keep(s, Perform(s.db, call))
    case LeasePayout(index, owner, now, duration, _) => Keep(s, TakeLease(s.db, index, owner, now + duration))
    case Lease(w, index, owner, now, duration, _) =>
      Goto(Keep(s, TakeLease(s.db, index, owner, now + duration)), w, Leased(JobKey(s.db.outbox[index])))
    case Load(w) => DoLoad(s, w)
    case Build(w, hash) => Goto(s, w, Built(s.runs[w].key, hash))
    case Abandon(w) => BackOff(s, w, s.runs[w].key)
    case Simulate(w, at) => End(Keep(s, SimulateRetirement(s.db, s.runs[w].key, at)), w)
    case Save(w) => DoSave(s, w)
    case Submit(w) => DoSubmit(s, w)
    case Reply(w, answer) => DoReply(s, w, answer)
    case Act(w, ledgerAt, at) => DoAct(s, w, ledgerAt, at)
    case Crash(w) => End(s, w)
    case Resolve(hash, fate) => s.(net := s.net.(fate := s.net.fate[hash := fate]))
  }

  // ---------------------------------------------------------------- invariant

  // The intents the protocol keeps track of: retirements always, transfers
  // unless two of their runs may build at once.
  predicate Tracked(key: Key, overlap: Overlap) {
    key.purpose == Retirement || (key.purpose == Transfer && overlap != Free)
  }

  // Every hash ever sent for a tracked intent is the one stored with it, or
  // never reaches the ledger.
  ghost predicate SubmittedSound(db: Db, net: Network, overlap: Overlap) {
    forall key: Key, hash: Hash :: (key, hash) in net.submitted ==>
      && key in db.intents && key.purpose != Deposit && hash in net.fate
      && (Tracked(key, overlap) ==> db.intents[key].hash == Some(hash) || HasFate(net, hash, Rejected))
  }

  ghost predicate FatesSound(net: Network) {
    forall hash: Hash :: hash in net.fate ==> exists key: Key :: (key, hash) in net.submitted
  }

  // How an intent ended: a retirement says so itself, a transfer's order does.
  predicate Succeeded(db: Db, key: Key) {
    key in db.intents
    && if key.purpose == Transfer then key.order in db.orders && db.orders[key.order].status == Completed
       else db.intents[key].status == Confirmed
  }

  predicate Refused(db: Db, key: Key) {
    key in db.intents
    && if key.purpose == Transfer then key.order in db.orders && db.orders[key.order].status == StellarFailed
       else db.intents[key].status == Failed
  }

  predicate OutcomeTrue(db: Db, net: Network, key: Key) {
    && (Succeeded(db, key) ==> db.intents[key].hash.Some? && HasFate(net, db.intents[key].hash.value, Applied))
    && (Refused(db, key) ==> db.intents[key].hash.Some? && Dead(net, db.intents[key].hash.value))
  }

  // How a tracked intent ended is what happened on the ledger.
  ghost predicate OutcomesTrue(db: Db, net: Network, overlap: Overlap) {
    forall key :: key in db.intents && Tracked(key, overlap) ==> OutcomeTrue(db, net, key)
  }

  predicate Stored(db: Db, key: Key, hash: Hash) {
    key in db.intents && db.intents[key].hash == Some(hash)
  }

  // The hash is stored with the intent, and only the ledger can have refused it.
  predicate Holds(s: System, key: Key, hash: Hash) {
    Stored(s.db, key, hash) && (Refused(s.db, key) ==> HasFate(s.net, hash, FailedOnLedger))
  }

  // What a run of a tracked intent knows at its program counter.
  predicate Knows(s: System, run: Run) {
    var key := run.key;
    match run
    case Saved(_, hash) => Holds(s, key, hash)
    case Sent(_, hash) => Holds(s, key, hash) && (key, hash) in s.net.submitted
    case Answered(_, hash, answer) =>
      Holds(s, key, hash) && (key, hash) in s.net.submitted && TrueOfSubmit(s.net, hash, answer)
    case Looking(_, hash) => Stored(s.db, key, hash) || HasFate(s.net, hash, Rejected)
    case Found(_, hash, answer) =>
      (Stored(s.db, key, hash) || HasFate(s.net, hash, Rejected)) && TrueOfFind(s.net, hash, answer)
    case _ => IsBuilding(run) && key.purpose == Transfer ==> key in s.db.intents && s.db.intents[key].hash.None?
  }

  predicate RunSound(s: System, run: Run, overlap: Overlap) {
    && run.key in s.db.intents && run.key.purpose != Deposit
    && (run.key.purpose == Transfer && overlap == Never ==> BeingSettled(s.db, run.key))
    && (Tracked(run.key, overlap) ==> Knows(s, run))
  }

  // The run that saved a hash and has not handed it over to reconciliation.
  predicate Owns(run: Run) {
    run.Saved? || run.Sent? || run.Answered?
  }

  predicate Apart(a: Run, b: Run, overlap: Overlap) {
    a.key == b.key && Tracked(a.key, overlap) ==>
      && !(Owns(a) && Owns(b))
      && (a.key.purpose == Transfer ==> overlap != Never && !(IsBuilding(a) && IsBuilding(b)))
  }

  ghost predicate RunsSound(s: System, overlap: Overlap) {
    && (forall w :: w in s.runs ==> RunSound(s, s.runs[w], overlap))
    && (forall w1, w2 :: w1 in s.runs && w2 in s.runs && w1 != w2 ==> Apart(s.runs[w1], s.runs[w2], overlap))
  }

  ghost predicate NetSound(db: Db, net: Network, overlap: Overlap) {
    SubmittedSound(db, net, overlap) && FatesSound(net) && OutcomesTrue(db, net, overlap)
  }

  ghost predicate Sound(s: System, overlap: Overlap) {
    Inv(s.db, overlap == Never) && NetSound(s.db, s.net, overlap) && RunsSound(s, overlap)
  }

  lemma InitiallySound(overlap: Overlap)
    ensures Sound(INITIAL, overlap)
  {
    EmptyInv(overlap == Never);
  }
}
