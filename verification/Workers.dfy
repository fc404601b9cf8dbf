// The two workers as the program runs them: one call of RunOnce, step by step
// against the database and the network.
//
// A call that nothing interrupts is a run of the machine of module
// Submission, so what is proved of that machine's reachable states holds of
// the program's.
module Workers {
  import opened Prelude
  import opened Orders
  import opened Ledger
  import opened Invariant
  import opened Effects
  import opened Submission
  import SubmissionProof
  import Transactions
  import opened Repositories
  import opened Traces

  // ---------------------------------------------------------------- network

  // A network that decides transactions as it likes and answers truthfully or
  // not at all.
  class Horizon {
    var net: Network

    constructor ()
      ensures net == Network({}, map[])
    {
      net := Network({}, map[]);
    }

    method Decide(hash: Hash) returns (fate: Option<Fate>)
      modifies this
      ensures fate.Some? ==> HasFate(old(net), hash, InFlight)
      ensures net == Decided(old(net), hash, fate)
    {
      fate := None;
      if HasFate(net, hash, InFlight) {
        var decision: Fate := *;
        fate := Some(decision);
        net := net.(fate := net.fate[hash := decision]);
      }
    }

    method Submit(key: Key, hash: Hash) returns (answer: Answer, fate: Option<Fate>)
      modifies this
      ensures fate.Some? ==> HasFate(Transmit(old(net), key, hash), hash, InFlight)
      ensures net == Decided(Transmit(old(net), key, hash), hash, fate) && TrueOfSubmit(net, hash, answer)
      ensures net.submitted == old(net.submitted) + {(key, hash)}
    {
      net := Transmit(net, key, hash);
      fate := Decide(hash);
      answer := *;
      if !TrueOfSubmit(net, hash, answer) {
        answer := NoAnswer;
      }
    }

    method FindByHash(hash: Hash) returns (answer: Answer, fate: Option<Fate>)
      modifies this
      ensures fate.Some? ==> HasFate(old(net), hash, InFlight)
      ensures net == Decided(old(net), hash, fate) && TrueOfFind(net, hash, answer)
    {
      fate := Decide(hash);
      answer := *;
      if !TrueOfFind(net, hash, answer) {
        answer := NoAnswer;
      }
    }
  }

  function Decided(net: Network, hash: Hash, fate: Option<Fate>): Network {
    match fate
    case Some(f) => net.(fate := net.fate[hash := f])
    case None => net
  }

  // ---------------------------------------------------------------- steps

  lemma Leases(s: System, w: nat, index: nat, owner: string, now: Time, duration: Time, maxAttempts: nat, overlap: Overlap)
    requires Enabled(s, Action.Lease(w, index, owner, now, duration, maxAttempts), overlap)
    ensures Leads(s, Goto(Keep(s, TakeLease(s.db, index, owner, now + duration)), w, Leased(JobKey(s.db.outbox[index]))), overlap)
  {
    hide Leads, TakeLease;
    Here(s, overlap);
    Extend(s, s, Action.Lease(w, index, owner, now, duration, maxAttempts), overlap);
  }

  lemma Loads(s: System, m: System, w: nat, overlap: Overlap)
    requires Leads(s, m, overlap) && Enabled(m, Load(w), overlap)
    ensures Leads(s, DoLoad(m, w), overlap)
  {
    hide Leads, DoLoad;
    Extend(s, m, Load(w), overlap);
  }

  lemma Builds(s: System, m: System, w: nat, hash: Hash, overlap: Overlap)
    requires Leads(s, m, overlap) && Enabled(m, Build(w, hash), Free)
    ensures Leads(s, Goto(m, w, Built(m.runs[w].key, hash)), overlap)
  {
    hide Leads;
    Extend(s, m, Build(w, hash), overlap);
  }

  lemma Abandons(s: System, m: System, w: nat, overlap: Overlap)
    requires Leads(s, m, overlap) && Enabled(m, Abandon(w), Free)
    ensures Leads(s, BackOff(m, w, m.runs[w].key), overlap)
  {
    hide Leads;
    Extend(s, m, Abandon(w), overlap);
  }

  lemma Simulates(s: System, m: System, w: nat, at: Time, overlap: Overlap)
    requires Leads(s, m, overlap) && Enabled(m, Simulate(w, at), Free)
    ensures Leads(s, End(Keep(m, SimulateRetirement(m.db, m.runs[w].key, at)), w), overlap)
  {
    hide Leads, SimulateRetirement;
    Extend(s, m, Simulate(w, at), overlap);
  }

  lemma Saves(s: System, m: System, w: nat, overlap: Overlap)
    requires Leads(s, m, overlap) && Enabled(m, Save(w), Free)
    ensures Leads(s, DoSave(m, w), overlap)
  {
    hide Leads, DoSave;
    Extend(s, m, Save(w), overlap);
  }

  lemma Crashes(s: System, m: System, w: nat, overlap: Overlap)
    requires Leads(s, m, overlap) && w in m.runs
    ensures Leads(s, End(m, w), overlap)
  {
    hide Leads;
    Extend(s, m, Crash(w), overlap);
  }

  lemma Acts(s: System, m: System, w: nat, ledgerAt: Time, now: Time, overlap: Overlap)
    requires Leads(s, m, overlap) && Enabled(m, Act(w, ledgerAt, now), Free)
    ensures Leads(s, DoAct(m, w, ledgerAt, now), overlap)
  {
    hide Leads, DoAct;
    Extend(s, m, Act(w, ledgerAt, now), overlap);
  }

  lemma Resolves(s: System, m: System, hash: Hash, fate: Option<Fate>, overlap: Overlap)
    requires Leads(s, m, overlap) && (fate.Some? ==> HasFate(m.net, hash, InFlight))
    ensures Leads(s, m.(net := Decided(m.net, hash, fate)), overlap)
  {
    hide Leads;
    if fate.Some? {
      Extend(s, m, Resolve(hash, fate.value), overlap);
    }
  }

  lemma Replies(s: System, m: System, w: nat, answer: Answer, overlap: Overlap)
    requires Leads(s, m, overlap) && Enabled(m, Reply(w, answer), Free)
    ensures Leads(s, DoReply(m, w, answer), overlap)
  {
    hide Leads, DoReply;
    Extend(s, m, Reply(w, answer), overlap);
  }

  // A saved transaction is sent, perhaps decided, and answered for.
  lemma SubmitsAndHears(s: System, db: Db, net: Network, runs: map<nat, Run>, w: nat, key: Key, hash: Hash,
                        fate: Option<Fate>, answer: Answer, overlap: Overlap)
    requires Leads(s, System(db, net, runs[w := Saved(key, hash)]), overlap)
    requires fate.Some? ==> HasFate(Transmit(net, key, hash), hash, InFlight)
    requires TrueOfSubmit(Decided(Transmit(net, key, hash), hash, fate), hash, answer)
    ensures Leads(s, System(db, Decided(Transmit(net, key, hash), hash, fate), runs[w := Answered(key, hash, answer)]), overlap)
  {
    hide Leads, Transmit, HasFate, TrueOfSubmit;
    var saved := System(db, net, runs[w := Saved(key, hash)]);
    Extend(s, saved, Submit(w), overlap);
    var sent := System(db, Transmit(net, key, hash), runs[w := Sent(key, hash)]);
    assert sent == DoSubmit(saved, w);
    Resolves(s, sent, hash, fate, overlap);
    var decided := sent.(net := Decided(sent.net, hash, fate));
    Replies(s, decided, w, answer, overlap);
    assert DoReply(decided, w, answer).runs == runs[w := Answered(key, hash, answer)];
  }

  lemma LooksAndFinds(s: System, db: Db, net: Network, runs: map<nat, Run>, w: nat, key: Key, hash: Hash,
                      fate: Option<Fate>, answer: Answer, overlap: Overlap)
    requires Leads(s, System(db, net, runs[w := Looking(key, hash)]), overlap)
    requires fate.Some? ==> HasFate(net, hash, InFlight)
    requires TrueOfFind(Decided(net, hash, fate), hash, answer)
    ensures Leads(s, System(db, Decided(net, hash, fate), runs[w := Found(key, hash, answer)]), overlap)
  {
    hide Leads, HasFate, TrueOfFind;
    var looking := System(db, net, runs[w := Looking(key, hash)]);
    Resolves(s, looking, hash, fate, overlap);
    var decided := looking.(net := Decided(net, hash, fate));
    Replies(s, decided, w, answer, overlap);
    assert DoReply(decided, w, answer).runs == runs[w := Found(key, hash, answer)];
  }

  // ---------------------------------------------------------------- settlement

  // Run `w` is at `run` in a system made of this database and network, which
  // the machine leads to from `s`.
  ghost predicate At(s: System, db: Db, net: Network, runs: map<nat, Run>, w: nat, run: Run, overlap: Overlap) {
    w !in runs && Leads(s, System(db, net, runs[w := run]), overlap)
  }

  // The tables after a transaction that may have rolled back.
  function Tried(db: Db, result: Result): Db {
    match result
    case Committed(next) => next
    case RolledBack(_) => db
  }

  lemma Waits(s: System, db: Db, net: Network, runs: map<nat, Run>, w: nat, key: Key, now: Time, overlap: Overlap)
    requires At(s, db, net, runs, w, BackingOff(key), overlap)
    ensures Leads(s, System(Tried(db, RetryLater(db, key, now)), net, runs), overlap)
  {
    hide Leads, RetryLater;
    var m := System(db, net, runs[w := BackingOff(key)]);
    Acts(s, m, w, 0, now, overlap);
    assert m.runs - {w} == runs;
  }

  // A run that has an answer and acts on it.
  lemma ActsOn(s: System, db: Db, net: Network, runs: map<nat, Run>, w: nat, run: Run, ledgerAt: Time, now: Time, overlap: Overlap)
    requires At(s, db, net, runs, w, run, overlap) && (run.Answered? || run.Found?)
    ensures run.answer == SaysConfirmed ==>
              Leads(s, System(Tried(db, ConfirmIntent(db, run.key, run.hash, ledgerAt, now)), net, runs), overlap)
    ensures run.answer == SaysPermanent ==> Leads(s, System(Tried(db, RefuseIntent(db, run.key)), net, runs), overlap)
    ensures run.answer == SaysRetryable && run.Answered? && run.key.purpose == Transfer ==>
              At(s, Tried(db, ResetSubmitted(db, run.key)), net, runs, w, BackingOff(run.key), overlap)
    ensures run.answer == SaysRetryable && run.Answered? && run.key.purpose != Transfer ==>
              Leads(s, System(Tried(db, ResetRetirementHash(db, run.key, run.hash)), net, runs), overlap)
    ensures run.answer == SaysPending || (run.Found? && run.answer in {SaysUnknown, NoAnswer, SaysRetryable}) ==>
              if run.key.purpose == Transfer then At(s, db, net, runs, w, BackingOff(run.key), overlap)
              else Leads(s, System(db, net, runs), overlap)
    ensures run.Answered? && run.answer in {SaysUnknown, NoAnswer} ==>
              At(s, if run.key.purpose == Transfer then Tried(db, MarkUnknown(db, run.key)) else db, net, runs, w,
                 Looking(run.key, run.hash), overlap)
  {
    hide Leads, RetryLater, ConfirmIntent, RefuseIntent, ResetSubmitted, ResetRetirementHash, MarkUnknown;
    var m := System(db, net, runs[w := run]);
    Acts(s, m, w, ledgerAt, now, overlap);
    assert m.runs - {w} == runs;
    assert m.runs[w := BackingOff(run.key)] == runs[w := BackingOff(run.key)];
    assert m.runs[w := Looking(run.key, run.hash)] == runs[w := Looking(run.key, run.hash)];
  }

  // Configured durations; the constructors of the program turn others down.
  type Duration = d: Time | d > 0 witness 1

  // Runs of the intent that are in progress leave room for one more.
  ghost predicate Clear(s: System, key: Key, overlap: Overlap) {
    match overlap
    case Never => Exclusive(s, key)
    case OneBuilder => forall v :: v in s.runs && s.runs[v].key == key ==> !IsBuilding(s.runs[v])
    case Free => true
  }

  // No settlement job of the order may be leased before then.
  ghost predicate NoneBefore(db: Db, id: OrderId, from: Time) {
    forall i, at: Time, limit: nat :: 0 <= i < |db.outbox| && db.outbox[i].order == id ==>
      (Leasable(db.outbox[i], SettleOnramp, at, limit) ==> from <= at)
  }

  class SettlementUsecase {
    const repository: Database
    const network: Horizon
    const leaseDuration: Duration
    const retryDelay: Duration
    const maxAttempts: nat

    constructor (repository: Database, network: Horizon, leaseDuration: Duration, retryDelay: Duration, maxAttempts: nat)
      ensures this.repository == repository && this.network == network
    {
      this.repository, this.network := repository, network;
      this.leaseDuration, this.retryDelay, this.maxAttempts := leaseDuration, retryDelay, maxAttempts;
    }

    // What this use case's database and network are now, with `runs` in progress.
    ghost function Now(runs: map<nat, Run>): System
      reads repository, network
    {
      System(repository.Tables(), network.net, runs)
    }

    method RetryLater(key: Key, now: Time, ghost s: System, ghost runs: map<nat, Run>, ghost w: nat, ghost overlap: Overlap)
      requires At(s, repository.Tables(), network.net, runs, w, BackingOff(key), overlap)
      modifies repository
      ensures Leads(s, Now(runs), overlap)
      ensures repository.Tables() == Tried(old(repository.Tables()), Ledger.RetryLater(old(repository.Tables()), key, now + retryDelay))
    {
      hide Leads;
      Waits(s, repository.Tables(), network.net, runs, w, key, now + retryDelay, overlap);
      var _ := repository.RetryLater(key, now + retryDelay);
    }

    // What an answer that ends a run makes of the tables.
    ghost function Ended(db: Db, key: Key, hash: Hash, answer: Answer, ledgerAt: Time, now: Time): Db {
      Tried(db, match answer
                case SaysConfirmed => Confirm(db, key, hash, ledgerAt)
                case SaysPermanent => FailPermanent(db, key)
                case _ => Ledger.RetryLater(db, key, now + retryDelay))
    }

    // What the answer to a submission makes of the tables that hold its hash:
    // an unknown one is looked up, a rejected one is forgotten and tried later.
    ghost function AfterAnswer(db: Db, key: Key, hash: Hash, said: Answer, found: Option<Answer>, ledgerAt: Time, now: Time): Db {
      match said
      case SaysRetryable => Ended(Tried(db, ResetSubmitted(db, key)), key, hash, SaysRetryable, ledgerAt, now)
      case SaysConfirmed => Ended(db, key, hash, said, ledgerAt, now)
      case SaysPermanent => Ended(db, key, hash, said, ledgerAt, now)
      case SaysPending => Ended(db, key, hash, said, ledgerAt, now)
      case _ =>
        match found
        case Some(answer) => Ended(Tried(db, MarkUnknown(db, key)), key, hash, answer, ledgerAt, now)
        case None => db
    }

    method Reconcile(key: Key, hash: Hash, ledgerAt: Time, now: Time,
                     ghost s: System, ghost runs: map<nat, Run>, ghost w: nat, ghost overlap: Overlap)
      returns (answer: Answer)
      requires key.purpose == Transfer
      requires At(s, repository.Tables(), network.net, runs, w, Looking(key, hash), overlap)
      modifies repository, network
      ensures Leads(s, Now(runs), overlap)
      ensures TrueOfFind(network.net, hash, answer) && network.net.submitted == old(network.net.submitted)
      ensures repository.Tables() == Ended(old(repository.Tables()), key, hash, answer, ledgerAt, now)
      decreases 1
    {
      hide Leads, TrueOfFind, HasFate;
      ghost var db, net := repository.Tables(), network.net;
      var fate;
      answer, fate := network.FindByHash(hash);
      LooksAndFinds(s, db, net, runs, w, key, hash, fate, answer, overlap);
      if answer in {NoAnswer, SaysUnknown, SaysPending, SaysRetryable} {
        ActsOn(s, db, network.net, runs, w, Found(key, hash, answer), ledgerAt, now, overlap);
        RetryLater(key, now, s, runs, w, overlap);
      } else {
        var _ := HandleSubmission(key, hash, answer, ledgerAt, now, s, runs, w, Found(key, hash, answer), overlap);
      }
    }

    method HandleSubmission(key: Key, hash: Hash, answer: Answer, ledgerAt: Time, now: Time,
                            ghost s: System, ghost runs: map<nat, Run>, ghost w: nat, ghost run: Run, ghost overlap: Overlap)
      returns (found: Option<Answer>)
      requires key.purpose == Transfer
      requires run == Answered(key, hash, answer) || run == Found(key, hash, answer)
      requires run.Found? ==> answer in {SaysConfirmed, SaysPermanent}
      requires answer !in {NoAnswer, SaysRetryable}
      requires At(s, repository.Tables(), network.net, runs, w, run, overlap)
      modifies repository, network
      ensures Leads(s, Now(runs), overlap)
      ensures network.net.submitted == old(network.net.submitted)
      ensures found.Some? <==> answer == SaysUnknown
      ensures found.Some? ==> TrueOfFind(network.net, hash, found.value)
      ensures repository.Tables() == AfterAnswer(old(repository.Tables()), key, hash, answer, found, ledgerAt, now)
      ensures answer != SaysUnknown ==> network.net == old(network.net)
      decreases if answer == SaysUnknown then 2 else 0
    {
      hide Leads;
      found := None;
      ActsOn(s, repository.Tables(), network.net, runs, w, run, ledgerAt, now, overlap);
      match answer
      case SaysConfirmed => var _ := repository.Confirm(key, hash, ledgerAt);
      case SaysPermanent => var _ := repository.FailPermanent(key);
      case SaysUnknown =>
        repository.MarkUnknown(key);
        var looked := Reconcile(key, hash, ledgerAt, now, s, runs, w, overlap);
        found := Some(looked);
      case SaysPending => RetryLater(key, now, s, runs, w, overlap);
    }

    // An answer settles the order or fails it; any other leaves it to be tried
    // again, not before the delay is over and by whoever is first then.
    ghost predicate Follows(next: Db, key: Key, hash: Hash, answer: Answer, ledgerAt: Time, now: Time) {
      && key in next.intents
      && match answer
         case SaysConfirmed =>
           && StatusOf(next, key.order) == Some(Completed) && next.intents[key].status == Confirmed
           && next.intents[key].hash == Some(hash) && next.intents[key].ledgerAt == Some(ledgerAt)
         case SaysPermanent =>
           && StatusOf(next, key.order) == Some(StellarFailed) && next.intents[key].status == Failed
           && next.intents[key].hash == Some(hash)
         case _ =>
           && StatusOf(next, key.order) == Some(StellarProcessing) && Open(next.outbox, SettleOnramp, key.order) == 1
           && NoneBefore(next, key.order, now + retryDelay)
    }

    lemma EndedFollows(db: Db, key: Key, hash: Hash, answer: Answer, ledgerAt: Time, now: Time, strict: bool)
      requires Inv(db, strict) && key in db.intents && db.intents[key].hash == Some(hash)
      requires key.purpose == Transfer && StatusOf(db, key.order) == Some(StellarProcessing)
      requires strict || db.intents[key].status != Confirmed
      ensures Follows(Ended(db, key, hash, answer, ledgerAt, now), key, hash, answer, ledgerAt, now)
      ensures Ended(db, key, hash, answer, ledgerAt, now).intents[key].hash == Some(hash)
    {
      hide Inv, Open, Confirm, FailPermanent, OnlyOrder;
      ConfirmOutcome(db, key, hash, ledgerAt, strict);
      StillOpen(db, key, strict);
      FailPermanentOutcome(db, key, strict);
      Waiting(db, key, now + retryDelay, strict);
    }

    lemma Waiting(db: Db, key: Key, availableAt: Time, strict: bool)
      requires Inv(db, strict) && key in db.intents && StatusOf(db, key.order) == Some(StellarProcessing)
      ensures var next := Tried(db, Ledger.RetryLater(db, key, availableAt));
              && next == db.(outbox := next.outbox) && Open(next.outbox, SettleOnramp, key.order) == 1
              && NoneBefore(next, key.order, availableAt)
    {
      hide Inv, Open;
      NoJobs(db, key.order, strict);
      var next := Tried(db, Ledger.RetryLater(db, key, availableAt));
      OpenSame(next.outbox, db.outbox, SettleOnramp, key.order);
    }

    // A submission ends as its last answer says. One that was rejected leaves
    // no hash behind, one in doubt keeps the hash it sent.
    lemma SubmissionFollows(db: Db, key: Key, hash: Hash, said: Answer, found: Option<Answer>, ledgerAt: Time, now: Time, strict: bool)
      requires Inv(db, strict) && key in db.intents && db.intents[key].hash.None? && !HashTaken(db, key, hash)
      requires key.purpose == Transfer && StatusOf(db, key.order) == Some(StellarProcessing)
      requires found.Some? <==> said in {SaysUnknown, NoAnswer}
      ensures var next := AfterAnswer(Tried(db, MarkSubmitted(db, key, hash)), key, hash, said, found, ledgerAt, now);
              && Follows(next, key, hash, if found.Some? then found.value else said, ledgerAt, now)
              && next.intents[key].hash == if said == SaysRetryable then None else Some(hash)
    {
      hide Inv, HashTaken, Follows, Ended, Transactions.Extends;
      var saved := MarkSubmitted(db, key, hash).db;
      SubmissionProof.SaveEffect(db, key, hash, strict);
      if said == SaysRetryable {
        SubmissionProof.ResetEffect(saved, key, hash, strict);
        ResetFollows(saved, key, hash, ledgerAt, now, strict);
      } else if found.Some? {
        SubmissionProof.MarkUnknownEffect(saved, key, strict);
        EndedFollows(MarkUnknown(saved, key).db, key, hash, found.value, ledgerAt, now, strict);
      } else {
        EndedFollows(saved, key, hash, said, ledgerAt, now, strict);
      }
    }

    lemma ResetFollows(db: Db, key: Key, hash: Hash, ledgerAt: Time, now: Time, strict: bool)
      requires key in db.intents && ResetSubmitted(db, key).Committed? && Inv(ResetSubmitted(db, key).db, strict)
      requires StatusOf(db, key.order) == Some(StellarProcessing)
      ensures var next := Ended(Tried(db, ResetSubmitted(db, key)), key, hash, SaysRetryable, ledgerAt, now);
              Follows(next, key, hash, SaysRetryable, ledgerAt, now) && next.intents[key].hash == None
    {
      hide Inv, Open;
      Waiting(ResetSubmitted(db, key).db, key, now + retryDelay, strict);
    }

    // A transfer being settled has not been confirmed.
    lemma StillOpen(db: Db, key: Key, strict: bool)
      requires Inv(db, strict) && key in db.intents && key.purpose == Transfer && StatusOf(db, key.order) == Some(StellarProcessing)
      ensures strict ==> db.intents[key].status != Confirmed
    {
      hide Inv;
      Transactions.ProcessingIntent(db, key, strict);
    }

    // What a run that found no hash did with the transaction it built: it sends
    // that and nothing else, once its hash is stored, and acts on the answer.
    ghost predicate Sends(db: Db, net: Network, key: Key, built: Option<Hash>, said: Option<Answer>, found: Option<Answer>,
                          ledgerAt: Time, now: Time)
      reads repository, network
    {
      if built.None? then
        && network.net == net && said == None && found == None
        && repository.Tables() == Tried(db, Ledger.RetryLater(db, key, now + retryDelay))
      else if HashTaken(db, key, built.value) then
        network.net == net && said == None && found == None && repository.Tables() == db
      else
        && network.net.submitted == net.submitted + {(key, built.value)}
        && said.Some? && TrueOfSubmit(network.net, built.value, said.value)
        && (found.Some? <==> said.value in {SaysUnknown, NoAnswer})
        && (found.Some? ==> TrueOfFind(network.net, built.value, found.value))
        && repository.Tables() == AfterAnswer(Tried(db, MarkSubmitted(db, key, built.value)), key, built.value, said.value, found, ledgerAt, now)
    }

    // What a run did with the intent of its job: a stored hash is looked up and
    // nothing is sent, and without one a new transaction is.
    ghost predicate Worked(db: Db, net: Network, key: Key, built: Option<Hash>, said: Option<Answer>, found: Option<Answer>,
                           ledgerAt: Time, now: Time)
      reads repository, network
    {
      if key !in db.intents then
        network.net == net && said == None && found == None && repository.Tables() == db
      else match db.intents[key].hash
        case Some(hash) =>
          && network.net.submitted == net.submitted && said == None
          && found.Some? && TrueOfFind(network.net, hash, found.value)
          && repository.Tables() == Ended(db, key, hash, found.value, ledgerAt, now)
        case None => Sends(db, net, key, built, said, found, ledgerAt, now)
    }

    // The same, said of the order: it follows the last answer heard.
    ghost predicate Settles(db: Db, net: Network, key: Key, built: Option<Hash>, said: Option<Answer>, found: Option<Answer>,
                            ledgerAt: Time, now: Time)
      reads repository, network
    {
      && key in db.intents && StatusOf(db, key.order) == Some(StellarProcessing)
      && match (db.intents[key].hash, built)
         case (Some(hash), _) =>
           && network.net.submitted == net.submitted && found.Some?
           && (db.intents[key].status != Confirmed ==> Follows(repository.Tables(), key, hash, found.value, ledgerAt, now))
         case (None, None) =>
           network.net == net && repository.intents == db.intents && NoneBefore(repository.Tables(), key.order, now + retryDelay)
         case (None, Some(hash)) =>
           if HashTaken(db, key, hash) then network.net == net && repository.Tables() == db
           else
             && network.net.submitted == net.submitted + {(key, hash)} && said.Some?
             && Follows(repository.Tables(), key, hash, if found.Some? then found.value else said.value, ledgerAt, now)
             && repository.intents[key].hash == if said == Some(SaysRetryable) then None else Some(hash)
    }

    lemma WorkedSettles(db: Db, net: Network, key: Key, built: Option<Hash>, said: Option<Answer>, found: Option<Answer>,
                        ledgerAt: Time, now: Time, strict: bool)
      requires Worked(db, net, key, built, said, found, ledgerAt, now)
      requires Inv(db, strict) && key in db.intents && key.purpose == Transfer && StatusOf(db, key.order) == Some(StellarProcessing)
      ensures Settles(db, net, key, built, said, found, ledgerAt, now)
    {
      hide Inv, HashTaken, Follows, Ended, AfterAnswer, TrueOfFind, TrueOfSubmit, NoneBefore;
      match (db.intents[key].hash, built)
      case (Some(hash), _) =>
        if db.intents[key].status != Confirmed {
          EndedFollows(db, key, hash, found.value, ledgerAt, now, strict);
        }
      case (None, None) => Waiting(db, key, now + retryDelay, strict);
      case (None, Some(hash)) =>
        if !HashTaken(db, key, hash) {
          SubmissionFollows(db, key, hash, said.value, found, ledgerAt, now, strict);
        }
    }

    // The tables after a lease are as sound as before, and the job that was
    // leased has its transfer.
    lemma LeasedIsSettled(db: Db, index: nat, owner: string, now: Time, until: Time, strict: bool)
      requires Inv(db, strict) && index < |db.outbox| && Leasable(db.outbox[index], SettleOnramp, now, maxAttempts)
      ensures var leased := TakeLease(db, index, owner, until).db;
              && Inv(leased, strict) && JobKey(db.outbox[index]).purpose == Transfer
              && JobKey(db.outbox[index]) in leased.intents
              && StatusOf(leased, db.outbox[index].order) == Some(StellarProcessing)
    {
      hide Inv, Transactions.Extends;
      Transactions.OutboxRewriteKept(db, TakeLease(db, index, owner, until).db.outbox, strict);
      SubmissionProof.OpenJobHasIntent(db, index, strict);
    }

    // One run over whatever the network answers. `built` is what the adapter
    // built, or None when it failed to. `job` is the message that was leased,
    // `said` and `found` the answers to a submission and to a lookup, if any.
    method RunOnce(owner: string, now: Time, locked: set<nat>, built: Option<Hash>, ledgerAt: Time,
                   ghost runs: map<nat, Run>, ghost w: nat, ghost overlap: Overlap)
      returns (job: Option<nat>, said: Option<Answer>, found: Option<Answer>)
      requires w !in runs
      requires forall i :: 0 <= i < |repository.outbox| && repository.outbox[i].topic == SettleOnramp ==>
                             Clear(Now(runs), JobKey(repository.outbox[i]), overlap)
      modifies repository, network
      ensures Leads(old(Now(runs)), Now(runs), overlap)
      ensures job.Some? <==> exists i :: 0 <= i < |old(repository.outbox)| && i !in locked
                                         && Leasable(old(repository.outbox)[i], SettleOnramp, now, maxAttempts)
      ensures job.None? ==> Now(runs) == old(Now(runs)) && said == None && found == None
      ensures job.Some? ==>
                && job.value < |old(repository.outbox)| && job.value !in locked
                && Leasable(old(repository.outbox)[job.value], SettleOnramp, now, maxAttempts)
                && Worked(TakeLease(old(repository.Tables()), job.value, owner, now + leaseDuration).db, old(network.net),
                          JobKey(old(repository.outbox)[job.value]), built, said, found, ledgerAt, now)
      ensures job.Some? && Inv(old(repository.Tables()), overlap == Never) ==>
                Settles(TakeLease(old(repository.Tables()), job.value, owner, now + leaseDuration).db, old(network.net),
                        JobKey(old(repository.outbox)[job.value]), built, said, found, ledgerAt, now)
    {
      hide Leads, Leasable, Worked, Settles, Inv;
      said, found := None, None;
      ghost var s := Now(runs);
      job := repository.LeaseOutbox(SettleOnramp, owner, now, leaseDuration, maxAttempts, locked);
      if job.None? {
        Here(s, overlap);
        return;
      }
      var key := JobKey(repository.outbox[job.value]);
      assert key == JobKey(s.db.outbox[job.value]);
      Leases(s, w, job.value, owner, now, leaseDuration, maxAttempts, overlap);
      said, found := RunLeased(key, built, ledgerAt, now, s, runs, w, overlap);
      if Inv(s.db, overlap == Never) {
        LeasedIsSettled(s.db, job.value, owner, now, now + leaseDuration, overlap == Never);
        WorkedSettles(TakeLease(s.db, job.value, owner, now + leaseDuration).db, s.net, key, built, said, found, ledgerAt, now, overlap == Never);
      }
    }

    // The rest of a run, over the job it leased.
    method RunLeased(key: Key, built: Option<Hash>, ledgerAt: Time, now: Time,
                     ghost s: System, ghost runs: map<nat, Run>, ghost w: nat, ghost overlap: Overlap)
      returns (said: Option<Answer>, found: Option<Answer>)
      requires key.purpose == Transfer && Clear(Now(runs), key, overlap)
      requires At(s, repository.Tables(), network.net, runs, w, Leased(key), overlap)
      modifies repository, network
      ensures Leads(s, Now(runs), overlap)
      ensures Worked(old(repository.Tables()), old(network.net), key, built, said, found, ledgerAt, now)
    {
      hide Leads, TrueOfFind, Sends, Ended;
      said, found := None, None;
      ghost var leased := Now(runs[w := Leased(key)]);
      if key !in repository.intents {
        Crashes(s, leased, w, overlap);
        assert leased.runs - {w} == runs;
        return;
      }
      Loads(s, leased, w, overlap);
      match repository.intents[key].hash
      case Some(hash) =>
        assert leased.runs[w := Looking(key, hash)] == runs[w := Looking(key, hash)];
        var answer := Reconcile(key, hash, ledgerAt, now, s, runs, w, overlap);
        found := Some(answer);
      case None =>
        assert leased.runs[w := Loaded(key)] == runs[w := Loaded(key)];
        said, found := SubmitNew(key, built, ledgerAt, now, s, runs, w, overlap);
    }

    method SubmitNew(key: Key, built: Option<Hash>, ledgerAt: Time, now: Time,
                     ghost s: System, ghost runs: map<nat, Run>, ghost w: nat, ghost overlap: Overlap)
      returns (said: Option<Answer>, found: Option<Answer>)
      requires key.purpose == Transfer && key in repository.intents
      requires At(s, repository.Tables(), network.net, runs, w, Loaded(key), overlap)
      modifies repository, network
      ensures Leads(s, Now(runs), overlap)
      ensures Sends(old(repository.Tables()), old(network.net), key, built, said, found, ledgerAt, now)
    {
      hide Leads, HashTaken, Transmit, TrueOfSubmit, HasFate, TrueOfFind, AfterAnswer;
      said, found := None, None;
      ghost var loaded := Now(runs[w := Loaded(key)]);
      if built.None? {
        Abandons(s, loaded, w, overlap);
        assert loaded.runs[w := BackingOff(key)] == runs[w := BackingOff(key)];
        RetryLater(key, now, s, runs, w, overlap);
        return;
      }
      var hash := built.value;
      Builds(s, loaded, w, hash, overlap);
      assert loaded.runs[w := Built(key, hash)] == runs[w := Built(key, hash)];
      Saves(s, Now(runs[w := Built(key, hash)]), w, overlap);
      assert runs[w := Built(key, hash)] - {w} == runs;
      assert runs[w := Built(key, hash)][w := Saved(key, hash)] == runs[w := Saved(key, hash)];
      var failure := repository.MarkSubmitted(key, hash);
      if failure.Some? {
        return;
      }
      ghost var net := network.net;
      var answer, fate := network.Submit(key, hash);
      said := Some(answer);
      SubmitsAndHears(s, repository.Tables(), net, runs, w, key, hash, fate, answer, overlap);
      found := ActOnSubmission(key, hash, answer, ledgerAt, now, s, runs, w, overlap);
      Unsure(network.net, hash, answer);
    }

    method ActOnSubmission(key: Key, hash: Hash, answer: Answer, ledgerAt: Time, now: Time,
                           ghost s: System, ghost runs: map<nat, Run>, ghost w: nat, ghost overlap: Overlap)
      returns (found: Option<Answer>)
      requires key.purpose == Transfer
      requires At(s, repository.Tables(), network.net, runs, w, Answered(key, hash, answer), overlap)
      modifies repository, network
      ensures Leads(s, Now(runs), overlap)
      ensures network.net.submitted == old(network.net.submitted)
      ensures found.Some? <==> answer in {SaysUnknown, NoAnswer}
      ensures found.Some? ==> TrueOfFind(network.net, hash, found.value)
      ensures found.None? ==> network.net == old(network.net)
      ensures repository.Tables() == AfterAnswer(old(repository.Tables()), key, hash, answer, found, ledgerAt, now)
    {
      hide Leads, TrueOfFind;
      found := None;
      if answer == NoAnswer {
        ActsOn(s, repository.Tables(), network.net, runs, w, Answered(key, hash, answer), ledgerAt, now, overlap);
        repository.MarkUnknown(key);
        var looked := Reconcile(key, hash, ledgerAt, now, s, runs, w, overlap);
        found := Some(looked);
      } else if answer == SaysRetryable {
        ActsOn(s, repository.Tables(), network.net, runs, w, Answered(key, hash, answer), ledgerAt, now, overlap);
        repository.ResetSubmitted(key);
        RetryLater(key, now, s, runs, w, overlap);
      } else {
        found := HandleSubmission(key, hash, answer, ledgerAt, now, s, runs, w, Answered(key, hash, answer), overlap);
      }
    }
  }

  // An answer that says nothing is true of any network.
  lemma Unsure(net: Network, hash: Hash, answer: Answer)
    ensures answer in {SaysUnknown, NoAnswer} ==> TrueOfSubmit(net, hash, answer)
  {
  }

  // ---------------------------------------------------------------- retirement

  class RetireWorker {
    const repository: Database
    const network: Horizon
    const simulate: bool

    constructor (repository: Database, network: Horizon, simulate: bool)
      ensures this.repository == repository && this.network == network && this.simulate == simulate
    {
      this.repository, this.network, this.simulate := repository, network, simulate;
    }

    ghost function Now(runs: map<nat, Run>): System
      reads repository, network
    {
      System(repository.Tables(), network.net, runs)
    }

    // What an answer makes of the tables; the lease's end schedules a retry.
    ghost function Ended(db: Db, key: Key, hash: Hash, answer: Answer, ledgerAt: Time, now: Time): Db {
      match answer
      case SaysConfirmed => Tried(db, ConfirmRetirement(db, key, hash, ledgerAt, now))
      case SaysPermanent => Tried(db, FailRetirement(db, key))
      case _ => db
    }

    method Reconcile(key: Key, hash: Hash, ledgerAt: Time, now: Time,
                     ghost s: System, ghost runs: map<nat, Run>, ghost w: nat, ghost overlap: Overlap)
      returns (answer: Answer)
      requires key.purpose == Retirement
      requires At(s, repository.Tables(), network.net, runs, w, Looking(key, hash), overlap)
      modifies repository, network
      ensures Leads(s, Now(runs), overlap)
      ensures TrueOfFind(network.net, hash, answer) && network.net.submitted == old(network.net.submitted)
      ensures repository.Tables() == Ended(old(repository.Tables()), key, hash, answer, ledgerAt, now)
    {
      hide Leads, TrueOfFind, HasFate;
      ghost var db, net := repository.Tables(), network.net;
      var fate;
      answer, fate := network.FindByHash(hash);
      LooksAndFinds(s, db, net, runs, w, key, hash, fate, answer, overlap);
      ActsOn(s, db, network.net, runs, w, Found(key, hash, answer), ledgerAt, now, overlap);
      match answer
      case SaysConfirmed => var _ := repository.ConfirmRetirement(key, hash, ledgerAt, now);
      case SaysPermanent => var _ := repository.FailRetirement(key);
      case _ =>
    }

    // What the answer to a submission makes of the tables that hold its hash:
    // an unknown one is looked up, a rejected one is forgotten.
    ghost function AfterAnswer(db: Db, key: Key, hash: Hash, said: Answer, found: Option<Answer>, ledgerAt: Time, now: Time): Db {
      match said
      case SaysRetryable => Tried(db, ResetRetirementHash(db, key, hash))
      case SaysConfirmed => Ended(db, key, hash, said, ledgerAt, now)
      case SaysPermanent => Ended(db, key, hash, said, ledgerAt, now)
      case SaysPending => db
      case _ =>
        match found
        case Some(answer) => Ended(db, key, hash, answer, ledgerAt, now)
        case None => db
    }

    // What a run that found no hash did with the transaction it built: it sends
    // that and nothing else, once it has claimed the retirement under its hash,
    // and acts on the answer. Without a claim it does nothing.
    ghost predicate Sends(db: Db, net: Network, key: Key, built: Option<Hash>, said: Option<Answer>, found: Option<Answer>,
                          ledgerAt: Time, now: Time)
      reads repository, network
    {
      if built.None? || SaveRetirementHash(db, key, built.value).RolledBack? then
        network.net == net && said == None && found == None && repository.Tables() == db
      else
        && network.net.submitted == net.submitted + {(key, built.value)}
        && said.Some? && TrueOfSubmit(network.net, built.value, said.value)
        && (found.Some? <==> said.value in {SaysUnknown, NoAnswer})
        && (found.Some? ==> TrueOfFind(network.net, built.value, found.value))
        && repository.Tables() == AfterAnswer(SaveRetirementHash(db, key, built.value).db, key, built.value, said.value, found, ledgerAt, now)
    }

    // An answer sends the order on to its withdrawal or fails it; any other
    // leaves it as it is for the next lease.
    predicate Follows(next: Db, key: Key, hash: Hash, answer: Answer, ledgerAt: Time) {
      && key in next.intents && next.intents[key].hash == Some(hash)
      && match answer
         case SaysConfirmed =>
           && StatusOf(next, key.order) == Some(WithdrawalProcessing)
           && next.intents[key].status == Confirmed && next.intents[key].ledgerAt == Some(ledgerAt)
         case SaysPermanent => StatusOf(next, key.order) == Some(RetirementFailed) && next.intents[key].status == Failed
         case _ => StatusOf(next, key.order) == Some(RetirementProcessing) && next.intents[key].status == Submitted
    }

    lemma EndedFollows(db: Db, key: Key, hash: Hash, answer: Answer, ledgerAt: Time, now: Time, strict: bool)
      requires Inv(db, strict) && key in db.intents && db.intents[key].hash == Some(hash)
      requires key.purpose == Retirement && StatusOf(db, key.order) == Some(RetirementProcessing)
      ensures Follows(Ended(db, key, hash, answer, ledgerAt, now), key, hash, answer, ledgerAt)
    {
      hide Inv, Open, ConfirmRetirement, FailRetirement, OnlyOrder, Queued;
      Transactions.ProcessingIntent(db, key, strict);
      RetirementIs(db, key, strict);
      RetirementOutcome(db, key, hash, ledgerAt, now, strict);
      RefusalOutcome(db, key, strict);
    }

    // What a run leaves of a retirement that is wanted: a stored hash is
    // followed, and nothing is sent; without one the simulator simulates and
    // sends nothing, and the submitter sends exactly the transaction it built
    // and follows the answer, unless another transaction has its hash.
    ghost predicate Retires(db: Db, net: Network, key: Key, built: Option<Hash>, said: Option<Answer>, found: Option<Answer>, ledgerAt: Time)
      requires key in db.intents
      reads repository, network
    {
      match db.intents[key].hash
      case Some(hash) =>
        && network.net.submitted == net.submitted && found.Some?
        && Follows(repository.Tables(), key, hash, found.value, ledgerAt)
      case None =>
        if simulate then
          && network.net == net && StatusOf(repository.Tables(), key.order) == Some(WithdrawalProcessing)
          && key in repository.intents && repository.intents[key].status == Simulated
        else if built.None? || HashTaken(db, key, built.value) then
          network.net == net && repository.Tables() == db
        else
          && network.net.submitted == net.submitted + {(key, built.value)} && said.Some?
          && if said == Some(SaysRetryable)
             then && StatusOf(repository.Tables(), key.order) == Some(RetirementProcessing) && key in repository.intents
                  && repository.intents[key].hash == None && repository.intents[key].status == Pending
             else Follows(repository.Tables(), key, built.value, if found.Some? then found.value else said.value, ledgerAt)
    }

    lemma SentRetires(db: Db, net: Network, key: Key, built: Option<Hash>, said: Option<Answer>, found: Option<Answer>,
                      ledgerAt: Time, now: Time, strict: bool)
      requires Sends(db, net, key, built, said, found, ledgerAt, now) && !simulate
      requires Inv(db, strict) && key in db.intents && db.intents[key].hash.None?
      requires key.purpose == Retirement && StatusOf(db, key.order) == Some(RetirementProcessing)
      ensures Retires(db, net, key, built, said, found, ledgerAt)
    {
      hide Inv, Follows, Ended, TrueOfFind, TrueOfSubmit, SaveRetirementHash, Transactions.Extends;
      if built.Some? {
        ClaimOutcome(db, key, built.value, strict);
        if !HashTaken(db, key, built.value) {
          SubmissionProof.SaveEffect(db, key, built.value, strict);
          var saved := SaveRetirementHash(db, key, built.value).db;
          EndedFollows(saved, key, built.value, if found.Some? then found.value else said.value, ledgerAt, now, strict);
          StaysEnded(saved, key, built.value, ledgerAt, now);
        }
      }
    }

    lemma StaysEnded(db: Db, key: Key, hash: Hash, ledgerAt: Time, now: Time)
      ensures Ended(db, key, hash, SaysPending, ledgerAt, now) == db
    {
    }

    lemma FoundRetires(db: Db, net: Network, key: Key, built: Option<Hash>, answer: Answer, ledgerAt: Time, now: Time, strict: bool)
      requires Inv(db, strict) && key in db.intents && db.intents[key].hash.Some?
      requires key.purpose == Retirement && StatusOf(db, key.order) == Some(RetirementProcessing)
      requires network.net.submitted == net.submitted
      requires repository.Tables() == Ended(db, key, db.intents[key].hash.value, answer, ledgerAt, now)
      ensures Retires(db, net, key, built, None, Some(answer), ledgerAt)
    {
      hide Inv, Follows, Ended;
      EndedFollows(db, key, db.intents[key].hash.value, answer, ledgerAt, now, strict);
    }

    lemma SimulatedRetires(db: Db, net: Network, key: Key, built: Option<Hash>, now: Time, ledgerAt: Time, strict: bool)
      requires repository.Tables() == Tried(db, Ledger.SimulateRetirement(db, key, now)) && network.net == net && simulate
      requires Inv(db, strict) && key in db.intents && db.intents[key].hash.None?
      requires key.purpose == Retirement && StatusOf(db, key.order) == Some(RetirementProcessing)
      ensures Retires(db, net, key, built, None, None, ledgerAt)
    {
      hide Inv, Ledger.SimulateRetirement, OnlyOrder, Queued, Open;
      SimulationOutcome(db, key, now, strict);
      Transactions.ProcessingIntent(db, key, strict);
    }

    // One run over a retirement job leased just before. A stored hash is looked
    // up in either configuration. Without one, the simulating worker simulates
    // and sends nothing, and the submitting worker sends what it built and
    // simulates nothing.
    method RunOnce(key: Key, built: Option<Hash>, ledgerAt: Time, now: Time,
                   ghost s: System, ghost runs: map<nat, Run>, ghost w: nat, ghost overlap: Overlap)
      returns (said: Option<Answer>, found: Option<Answer>)
      requires key.purpose == Retirement
      requires At(s, repository.Tables(), network.net, runs, w, Leased(key), overlap)
      modifies repository, network
      ensures Leads(s, Now(runs), overlap)
      ensures var db, net := old(repository.Tables()), old(network.net);
              if key !in db.intents then
                network.net == net && said == None && found == None && repository.Tables() == db
              else match db.intents[key].hash
                case Some(hash) =>
                  && network.net.submitted == net.submitted && said == None
                  && found.Some? && TrueOfFind(network.net, hash, found.value)
                  && repository.Tables() == Ended(db, key, hash, found.value, ledgerAt, now)
                case None =>
                  if simulate then
                    && network.net == net && said == None && found == None
                    && repository.Tables() == Tried(db, Ledger.SimulateRetirement(db, key, now))
                  else Sends(db, net, key, built, said, found, ledgerAt, now)
      ensures !simulate ==> forall k :: k in repository.intents && repository.intents[k].status == Simulated ==>
                                          k in old(repository.intents) && old(repository.intents)[k].status == Simulated
      ensures Inv(old(repository.Tables()), overlap == Never) && key in old(repository.intents)
              && StatusOf(old(repository.Tables()), key.order) == Some(RetirementProcessing) ==>
                Retires(old(repository.Tables()), old(network.net), key, built, said, found, ledgerAt)
    {
      hide Leads, Sends, TrueOfFind, Ledger.SimulateRetirement, Ended, Inv, Retires, StatusOf;
      ghost var db, net, strict := repository.Tables(), network.net, overlap == Never;
      ghost var wanted := Inv(db, strict) && key in db.intents && StatusOf(db, key.order) == Some(RetirementProcessing);
      said, found := None, None;
      ghost var leased := Now(runs[w := Leased(key)]);
      if key !in repository.intents {
        Crashes(s, leased, w, overlap);
        assert leased.runs - {w} == runs;
        return;
      }
      Loads(s, leased, w, overlap);
      match repository.intents[key].hash
      case Some(hash) =>
        assert leased.runs[w := Looking(key, hash)] == runs[w := Looking(key, hash)];
        var answer := Reconcile(key, hash, ledgerAt, now, s, runs, w, overlap);
        found := Some(answer);
        EndedSimulatesNothing(db, key, hash, answer, ledgerAt, now);
        if wanted {
          FoundRetires(db, net, key, built, answer, ledgerAt, now, strict);
        }
      case None =>
        assert leased.runs[w := Loaded(key)] == runs[w := Loaded(key)];
        if simulate {
          Simulates(s, Now(runs[w := Loaded(key)]), w, now, overlap);
          assert runs[w := Loaded(key)] - {w} == runs;
          var _ := repository.SimulateRetirement(key, now);
          if wanted {
            SimulatedRetires(db, net, key, built, now, ledgerAt, strict);
          }
        } else {
          said, found := SubmitNew(key, built, ledgerAt, now, s, runs, w, overlap);
          SendsSimulatesNothing(db, net, key, built, said, found, ledgerAt, now);
          if wanted {
            SentRetires(db, net, key, built, said, found, ledgerAt, now, strict);
          }
        }
    }

    // No answer simulates anything.
    lemma EndedSimulatesNothing(db: Db, key: Key, hash: Hash, answer: Answer, ledgerAt: Time, now: Time)
      ensures forall k :: k in Ended(db, key, hash, answer, ledgerAt, now).intents
                          && Ended(db, key, hash, answer, ledgerAt, now).intents[k].status == Simulated ==>
                            k in db.intents && db.intents[k].status == Simulated
    {
      hide SlotFree;
    }

    lemma SendsSimulatesNothing(db: Db, net: Network, key: Key, built: Option<Hash>, said: Option<Answer>, found: Option<Answer>,
                                         ledgerAt: Time, now: Time)
      requires Sends(db, net, key, built, said, found, ledgerAt, now)
      ensures forall k :: k in repository.intents && repository.intents[k].status == Simulated ==>
                            k in db.intents && db.intents[k].status == Simulated
    {
      hide Ended, TrueOfSubmit, TrueOfFind, HashTaken;
      if built.Some? && SaveRetirementHash(db, key, built.value).Committed? {
        var saved := SaveRetirementHash(db, key, built.value).db;
        EndedSimulatesNothing(saved, key, built.value, said.value, ledgerAt, now);
        if found.Some? {
          EndedSimulatesNothing(saved, key, built.value, found.value, ledgerAt, now);
        }
      }
    }

    method SubmitNew(key: Key, built: Option<Hash>, ledgerAt: Time, now: Time,
                     ghost s: System, ghost runs: map<nat, Run>, ghost w: nat, ghost overlap: Overlap)
      returns (said: Option<Answer>, found: Option<Answer>)
      requires key.purpose == Retirement && key in repository.intents && repository.intents[key].hash.None?
      requires At(s, repository.Tables(), network.net, runs, w, Loaded(key), overlap)
      modifies repository, network
      ensures Leads(s, Now(runs), overlap)
      ensures Sends(old(repository.Tables()), old(network.net), key, built, said, found, ledgerAt, now)
    {
      hide Leads, HashTaken, Transmit, TrueOfSubmit, HasFate, TrueOfFind, Ended, Ledger.ResetRetirementHash;
      said, found := None, None;
      ghost var loaded := Now(runs[w := Loaded(key)]);
      if built.None? {
        Crashes(s, loaded, w, overlap);
        assert loaded.runs - {w} == runs;
        return;
      }
      var hash := built.value;
      Builds(s, loaded, w, hash, overlap);
      assert loaded.runs[w := Built(key, hash)] == runs[w := Built(key, hash)];
      Saves(s, Now(runs[w := Built(key, hash)]), w, overlap);
      assert runs[w := Built(key, hash)] - {w} == runs;
      assert runs[w := Built(key, hash)][w := Saved(key, hash)] == runs[w := Saved(key, hash)];
      assert runs[w := Built(key, hash)][w := Reloading(key)] == runs[w := Reloading(key)];
      var failure := repository.SaveRetirementHash(key, hash);
      if failure.Some? {
        if failure.value == HashAlreadySaved {
          found := FollowSaved(key, ledgerAt, now, s, runs, w, overlap);
        }
        return;
      }
      ghost var net := network.net;
      var answer, fate := network.Submit(key, hash);
      said := Some(answer);
      SubmitsAndHears(s, repository.Tables(), net, runs, w, key, hash, fate, answer, overlap);
      found := HandleSubmission(key, hash, answer, ledgerAt, now, s, runs, w, overlap);
      Unsure(network.net, hash, answer);
    }

    method HandleSubmission(key: Key, hash: Hash, answer: Answer, ledgerAt: Time, now: Time,
                            ghost s: System, ghost runs: map<nat, Run>, ghost w: nat, ghost overlap: Overlap)
      returns (found: Option<Answer>)
      requires key.purpose == Retirement
      requires At(s, repository.Tables(), network.net, runs, w, Answered(key, hash, answer), overlap)
      modifies repository, network
      ensures Leads(s, Now(runs), overlap)
      ensures network.net.submitted == old(network.net.submitted)
      ensures found.Some? <==> answer in {SaysUnknown, NoAnswer}
      ensures found.Some? ==> TrueOfFind(network.net, hash, found.value)
      ensures found.None? ==> network.net == old(network.net)
      ensures repository.Tables() == AfterAnswer(old(repository.Tables()), key, hash, answer, found, ledgerAt, now)
    {
      hide Leads, TrueOfFind;
      found := None;
      ActsOn(s, repository.Tables(), network.net, runs, w, Answered(key, hash, answer), ledgerAt, now, overlap);
      match answer
      case SaysConfirmed => var _ := repository.ConfirmRetirement(key, hash, ledgerAt, now);
      case SaysPermanent => var _ := repository.FailRetirement(key);
      case SaysRetryable => var _ := repository.ResetRetirementHash(key, hash);
      case SaysPending =>
      case _ =>
        var looked := Reconcile(key, hash, ledgerAt, now, s, runs, w, overlap);
        found := Some(looked);
    }

    // Another worker saved its hash first: that hash is reconciled, and what
    // this run built is dropped.
    method FollowSaved(key: Key, ledgerAt: Time, now: Time,
                       ghost s: System, ghost runs: map<nat, Run>, ghost w: nat, ghost overlap: Overlap)
      returns (found: Option<Answer>)
      requires key.purpose == Retirement
      requires At(s, repository.Tables(), network.net, runs, w, Reloading(key), overlap)
      modifies repository, network
      ensures Leads(s, Now(runs), overlap)
      ensures var db := old(repository.Tables());
              if key !in db.intents || db.intents[key].hash.None? then
                network.net == old(network.net) && found == None && repository.Tables() == db
              else
                && network.net.submitted == old(network.net.submitted)
                && found.Some? && TrueOfFind(network.net, db.intents[key].hash.value, found.value)
                && repository.Tables() == Ended(db, key, db.intents[key].hash.value, found.value, ledgerAt, now)
    {
      hide Leads, TrueOfFind, Ended;
      found := None;
      ghost var reloading := Now(runs[w := Reloading(key)]);
      if key !in repository.intents {
        Crashes(s, reloading, w, overlap);
        assert reloading.runs - {w} == runs;
        return;
      }
      Loads(s, reloading, w, overlap);
      match repository.intents[key].hash
      case Some(hash) =>
        assert reloading.runs[w := Looking(key, hash)] == runs[w := Looking(key, hash)];
        var looked := Reconcile(key, hash, ledgerAt, now, s, runs, w, overlap);
        found := Some(looked);
      case None =>
        assert reloading.runs - {w} == runs;
    }
  }
}
