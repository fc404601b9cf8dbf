// The submission protocols keep their invariant at every step.
module SubmissionProof {
  import opened Prelude
  import opened Orders
  import opened Ledger
  import opened Invariant
  import opened Transactions
  import opened Background
  import opened Submission

  // ---------------------------------------------------------------- effects

  // A worker's transaction touches one intent and its order.
  ghost predicate Touches(db: Db, next: Db, key: Key) {
    && key in db.intents
    && next.intents.Keys == db.intents.Keys
    && (forall k :: k in db.intents && k != key ==> next.intents[k] == db.intents[k])
    && (forall id :: id in db.orders && id != key.order ==> id in next.orders && next.orders[id] == db.orders[id])
    && next.orders.Keys == db.orders.Keys
    && (key.purpose != Transfer ==> Key(key.order, Transfer) !in db.intents)
  }

  // A sell order has no transfer beside its retirement.
  lemma NoTransferBeside(db: Db, key: Key, strict: bool)
    requires Inv(db, strict) && key in db.intents && key.purpose != Transfer
    ensures Key(key.order, Transfer) !in db.intents && key.order in db.orders
  {
    hide Replay, TreasuryOk, HashesUnique, BindingsOk, CheckoutsOk, OutboxOk;
    At(db, key.order, strict);
    match key.purpose {
      case Deposit => assert key == Key(key.order, Deposit);
      case Retirement => assert key == Key(key.order, Retirement);
    }
  }

  lemma Beside(db: Db, key: Key, strict: bool)
    requires Inv(db, strict) && key in db.intents
    ensures key.purpose != Transfer ==> Key(key.order, Transfer) !in db.intents
  {
    hide Inv;
    if key.purpose != Transfer {
      NoTransferBeside(db, key, strict);
    }
  }

  lemma ConfirmEffect(db: Db, key: Key, hash: Hash, ledgerAt: Time, now: Time, strict: bool)
    requires Inv(db, strict) && key.purpose != Deposit && ConfirmIntent(db, key, hash, ledgerAt, now).Committed?
    ensures var next := ConfirmIntent(db, key, hash, ledgerAt, now).db;
            && Touches(db, next, key) && next.intents[key].hash == db.intents[key].hash
            && (next == db || (db.intents[key].hash == Some(hash) && Succeeded(next, key) && !Refused(next, key)))
    ensures Kept(db, ConfirmIntent(db, key, hash, ledgerAt, now).db, strict)
  {
    hide Inv, Extends, Finish, SlotFree, EventsOf;
    Beside(db, key, strict);
    if key.purpose == Transfer {
      ConfirmKept(db, key, hash, ledgerAt, strict);
    } else {
      ConfirmRetirementKept(db, key, hash, ledgerAt, now, strict);
    }
  }

  lemma RefuseEffect(db: Db, key: Key, strict: bool)
    requires Inv(db, strict) && key.purpose != Deposit && RefuseIntent(db, key).Committed?
    ensures var next := RefuseIntent(db, key).db;
            Touches(db, next, key) && next.intents[key].hash == db.intents[key].hash && !Succeeded(next, key)
    ensures Kept(db, RefuseIntent(db, key).db, strict)
  {
    hide Inv, Extends, Finish, SlotFree, EventsOf;
    Beside(db, key, strict);
    if key.purpose == Transfer {
      FailPermanentKept(db, key, strict);
    } else {
      FailRetirementKept(db, key, strict);
    }
  }

  lemma SimulateEffect(db: Db, key: Key, at: Time, strict: bool)
    requires Inv(db, strict) && SimulateRetirement(db, key, at).Committed?
    ensures var next := SimulateRetirement(db, key, at).db;
            && Touches(db, next, key) && next.intents[key].hash == db.intents[key].hash
            && !Succeeded(next, key) && !Refused(next, key)
    ensures Kept(db, SimulateRetirement(db, key, at).db, strict)
  {
    hide Inv, Extends, Finish, SlotFree, EventsOf;
    Beside(db, key, strict);
    SimulateRetirementKept(db, key, at, strict);
  }

  // The three writes of a run that are about its hash leave every order alone.
  ghost predicate Rewrites(db: Db, next: Db, key: Key) {
    Touches(db, next, key) && next.orders == db.orders
  }

  // Clearing a hash clears that of one intent and nothing else, and keeps the
  // invariant whatever the state of the intent.
  lemma ResetEffect(db: Db, key: Key, hash: Hash, strict: bool)
    requires Inv(db, strict) && key in db.intents && ResetIntent(db, key, hash).Committed?
    requires key.purpose == Transfer && strict ==> BeingSettled(db, key)
    requires key.purpose != Deposit
    ensures var next := ResetIntent(db, key, hash).db;
            Rewrites(db, next, key) && next.intents[key].hash.None? && next.intents[key].status == Pending
    ensures Kept(db, ResetIntent(db, key, hash).db, strict)
  {
    hide Inv, Extends;
    Beside(db, key, strict);
    ProcessingIntent(db, key, strict);
    if key.purpose == Transfer {
      WorkKept(db, key, ResetSubmitted(db, key).db.intents[key], strict);
    } else {
      ResetRetirementHashKept(db, key, hash, strict);
    }
  }

  // Marking a transfer unknown leaves its hash, so it can still be found.
  lemma MarkUnknownEffect(db: Db, key: Key, strict: bool)
    requires Inv(db, strict) && key in db.intents && key.purpose == Transfer
    requires strict ==> BeingSettled(db, key) && db.intents[key].hash.Some?
    ensures var next := MarkUnknown(db, key);
            && next.Committed? && Rewrites(db, next.db, key)
            && next.db.intents[key].hash == db.intents[key].hash && next.db.intents[key].status == UnknownOutcome
            && Kept(db, next.db, strict)
  {
    hide Inv, Extends;
    ProcessingIntent(db, key, strict);
    WorkKept(db, key, MarkUnknown(db, key).db.intents[key], strict);
  }

  lemma SaveEffect(db: Db, key: Key, hash: Hash, strict: bool)
    requires Inv(db, strict) && key in db.intents && SaveIntent(db, key, hash).Committed?
    requires key.purpose == Transfer && strict ==> BeingSettled(db, key) && db.intents[key].hash.None?
    ensures !HashTaken(db, key, hash)
    ensures key.purpose != Transfer ==> key.purpose == Retirement && db.intents[key].status == Pending && db.intents[key].hash.None?
    ensures var next := SaveIntent(db, key, hash).db;
            Rewrites(db, next, key) && next.intents[key].hash == Some(hash) && next.intents[key].status == Submitted
    ensures Kept(db, SaveIntent(db, key, hash).db, strict)
  {
    hide Inv, Extends, HashTaken;
    Beside(db, key, strict);
    if key.purpose == Transfer {
      ProcessingIntent(db, key, strict);
      WorkKept(db, key, MarkSubmitted(db, key, hash).db.intents[key], strict);
    } else {
      SaveRetirementHashKept(db, key, hash, strict);
    }
  }

  // ---------------------------------------------------------------- framing

  // What may happen to the hash stored with a run's tracked intent: nothing; a
  // first hash; or the removal, by its owner, of a hash that never reaches the
  // ledger. And only its owner, or the ledger, ends it without success.
  ghost predicate HashStep(s: System, next: Db, w: nat, overlap: Overlap)
    requires w in s.runs
  {
    var key := s.runs[w].key;
    && Touches(s.db, next, key)
    && (Tracked(key, overlap) ==>
          && (|| next.intents[key].hash == s.db.intents[key].hash
              || (s.db.intents[key].hash.None? && (key.purpose == Transfer ==> IsBuilding(s.runs[w])))
              || (next.intents[key].hash.None? && Owns(s.runs[w]) && HasFate(s.net, s.db.intents[key].hash.value, Rejected)))
          && (Refused(next, key) ==>
                Refused(s.db, key) || Owns(s.runs[w])
                || (next.intents[key].hash.Some? && HasFate(s.net, next.intents[key].hash.value, FailedOnLedger))))
  }

  lemma OtherRunKept(s: System, next: Db, w: nat, other: nat, overlap: Overlap)
    requires RunsSound(s, overlap) && w in s.runs && other in s.runs && other != w && HashStep(s, next, w, overlap)
    ensures RunSound(s.(db := next), s.runs[other], overlap)
  {
    assert Apart(s.runs[w], s.runs[other], overlap);
    assert RunSound(s, s.runs[other], overlap);
    assert RunSound(s, s.runs[w], overlap);
  }

  // The runs after a step of run `w` that leaves it at `run`, or ends it.
  ghost predicate Steps(s: System, next: System, w: nat, overlap: Overlap) {
    && w in s.runs && next.net == s.net
    && HashStep(s, next.db, w, overlap)
    && (|| next.runs == s.runs - {w}
        || (&& w in next.runs && next.runs == s.runs[w := next.runs[w]]
            && next.runs[w].key == s.runs[w].key
            && RunSound(next, next.runs[w], overlap)
            && (Tracked(s.runs[w].key, overlap) ==>
                  && (Owns(next.runs[w]) ==> Owns(s.runs[w]) || s.db.intents[s.runs[w].key].hash.None?)
                  && (IsBuilding(next.runs[w]) && s.runs[w].key.purpose == Transfer ==> IsBuilding(s.runs[w]) || OnlyBuilder(s, w)))))
  }

  // No other run builds for the same transfer.
  ghost predicate OnlyBuilder(s: System, w: nat)
    requires w in s.runs
  {
    forall v :: v in s.runs && v != w && s.runs[v].key == s.runs[w].key ==> !IsBuilding(s.runs[v])
  }

  lemma RunsApart(s: System, next: System, w: nat, overlap: Overlap)
    requires RunsSound(s, overlap) && Steps(s, next, w, overlap)
    ensures forall w1, w2 :: w1 in next.runs && w2 in next.runs && w1 != w2 ==> Apart(next.runs[w1], next.runs[w2], overlap)
  {
    hide Touches;
    forall w1, w2 | w1 in next.runs && w2 in next.runs && w1 != w2
      ensures Apart(next.runs[w1], next.runs[w2], overlap)
    {
      assert Apart(s.runs[w1], s.runs[w2], overlap);
      assert RunSound(s, s.runs[w1], overlap) && RunSound(s, s.runs[w2], overlap);
    }
  }

  lemma RunsKept(s: System, next: System, w: nat, overlap: Overlap)
    requires RunsSound(s, overlap) && Steps(s, next, w, overlap)
    ensures RunsSound(next, overlap)
  {
    hide HashStep, RunSound, Apart, Owns;
    RunsApart(s, next, w, overlap);
    forall other | other in next.runs
      ensures RunSound(next, next.runs[other], overlap)
    {
      if other != w {
        OtherRunKept(s, next.db, w, other, overlap);
        SameTables(s.(db := next.db), next, s.runs[other], overlap);
      }
    }
  }

  // What a run knows is a matter of tables and network.
  lemma SameTables(s: System, t: System, run: Run, overlap: Overlap)
    requires s.db == t.db && s.net == t.net && RunSound(s, run, overlap)
    ensures RunSound(t, run, overlap)
  {
  }

  // Other intents end as they did.
  lemma OthersEnd(db: Db, next: Db, key: Key, other: Key)
    requires Touches(db, next, key) && other in db.intents && other != key && other.purpose != Deposit
    ensures Succeeded(next, other) == Succeeded(db, other) && Refused(next, other) == Refused(db, other)
    ensures next.intents[other] == db.intents[other]
  {
    if other.purpose == Transfer {
      assert other == Key(other.order, Transfer);
    }
  }

  lemma NetKept(s: System, next: Db, w: nat, overlap: Overlap)
    requires NetSound(s.db, s.net, overlap) && w in s.runs && HashStep(s, next, w, overlap)
    requires Tracked(s.runs[w].key, overlap) ==> OutcomeTrue(next, s.net, s.runs[w].key)
    ensures NetSound(next, s.net, overlap)
  {
    hide FatesSound, Succeeded, Refused;
    forall key | key in next.intents && Tracked(key, overlap)
      ensures OutcomeTrue(next, s.net, key)
    {
      if key != s.runs[w].key {
        OthersEnd(s.db, next, s.runs[w].key, key);
        assert OutcomeTrue(s.db, s.net, key);
      }
    }
  }

  lemma StepKept(s: System, next: System, w: nat, overlap: Overlap)
    requires Sound(s, overlap) && Steps(s, next, w, overlap) && Kept(s.db, next.db, overlap == Never)
    requires Tracked(s.runs[w].key, overlap) ==> OutcomeTrue(next.db, s.net, s.runs[w].key)
    ensures Sound(next, overlap)
  {
    hide Inv, Extends, RunsSound, NetSound, RunSound, HashStep, OutcomeTrue;
    RunsKept(s, next, w, overlap);
    NetKept(s, next.db, w, overlap);
  }

  // ---------------------------------------------------------------- steps

  // A step of run `w` that leaves the tables alone.
  lemma QuietStepKept(s: System, next: System, w: nat, overlap: Overlap)
    requires Sound(s, overlap) && w in s.runs && next.db == s.db && next.net == s.net
    requires || next.runs == s.runs - {w}
             || (&& w in next.runs && next.runs == s.runs[w := next.runs[w]]
                 && next.runs[w].key == s.runs[w].key
                 && RunSound(next, next.runs[w], overlap)
                 && (Owns(next.runs[w]) ==> Owns(s.runs[w]))
                 && (IsBuilding(next.runs[w]) && Tracked(s.runs[w].key, overlap) && s.runs[w].key.purpose == Transfer ==>
                       IsBuilding(s.runs[w]) || OnlyBuilder(s, w)))
    ensures Sound(next, overlap) && Kept(s.db, next.db, overlap == Never)
  {
    hide Inv, Extends, NetSound;
    assert RunSound(s, s.runs[w], overlap);
    Beside(s.db, s.runs[w].key, overlap == Never);
    RunsKept(s, next, w, overlap);
    Unchanged(s.db, overlap == Never);
  }

  lemma LoadKept(s: System, w: nat, overlap: Overlap)
    requires Sound(s, overlap) && w in s.runs && (s.runs[w].Leased? || s.runs[w].Reloading?) && s.runs[w].key in s.db.intents
    requires overlap == OneBuilder ==> !SecondBuilder(s, w)
    ensures Sound(DoLoad(s, w), overlap) && Kept(s.db, DoLoad(s, w).db, overlap == Never)
  {
    hide Inv, Extends, NetSound;
    assert RunSound(s, s.runs[w], overlap);
    if overlap == Never {
      AloneBuilds(s, w);
    }
    QuietStepKept(s, DoLoad(s, w), w, overlap);
  }

  lemma AloneBuilds(s: System, w: nat)
    requires RunsSound(s, Never) && w in s.runs && s.runs[w].key.purpose != Deposit
    ensures s.runs[w].key.purpose == Transfer ==> OnlyBuilder(s, w)
  {
    forall v | v in s.runs && v != w
      ensures s.runs[v].key == s.runs[w].key ==> s.runs[w].key.purpose != Transfer
    {
      assert Apart(s.runs[v], s.runs[w], Never);
    }
  }

  lemma BuildKept(s: System, w: nat, hash: Hash, overlap: Overlap)
    requires Sound(s, overlap) && w in s.runs && s.runs[w].Loaded?
    ensures Sound(Goto(s, w, Built(s.runs[w].key, hash)), overlap)
    ensures Kept(s.db, s.db, overlap == Never)
  {
    hide Inv, Extends, NetSound;
    assert RunSound(s, s.runs[w], overlap);
    QuietStepKept(s, Goto(s, w, Built(s.runs[w].key, hash)), w, overlap);
  }

  lemma SimulateKept(s: System, w: nat, at: Time, overlap: Overlap)
    requires Sound(s, overlap) && w in s.runs && s.runs[w].Loaded?
    ensures var next := End(Keep(s, SimulateRetirement(s.db, s.runs[w].key, at)), w);
            Sound(next, overlap) && Kept(s.db, next.db, overlap == Never)
  {
    hide Inv, Extends, NetSound, SimulateRetirement, RunSound;
    var next := End(Keep(s, SimulateRetirement(s.db, s.runs[w].key, at)), w);
    if SimulateRetirement(s.db, s.runs[w].key, at).Committed? {
      SimulateEffect(s.db, s.runs[w].key, at, overlap == Never);
      StepKept(s, next, w, overlap);
    } else {
      QuietStepKept(s, next, w, overlap);
    }
  }

  // Nothing has ended an intent without a hash.
  lemma NotEnded(s: System, key: Key, overlap: Overlap)
    requires NetSound(s.db, s.net, overlap) && key in s.db.intents && Tracked(key, overlap) && s.db.intents[key].hash.None?
    ensures !Succeeded(s.db, key) && !Refused(s.db, key)
  {
    assert OutcomeTrue(s.db, s.net, key);
  }

  // The order of a transfer says how it ended, and no rewrite of the intent
  // changes that.
  lemma RewrittenEnd(db: Db, next: Db, key: Key)
    requires Rewrites(db, next, key) && key.purpose != Deposit && !Settled(next.intents[key])
    ensures key.purpose == Transfer ==> Succeeded(next, key) == Succeeded(db, key) && Refused(next, key) == Refused(db, key)
    ensures key.purpose == Retirement ==> !Succeeded(next, key) && !Refused(next, key)
  {
  }

  lemma SaveKept(s: System, w: nat, overlap: Overlap)
    requires Sound(s, overlap) && w in s.runs && s.runs[w].Built?
    ensures Sound(DoSave(s, w), overlap) && Kept(s.db, DoSave(s, w).db, overlap == Never)
  {
    hide Inv, Extends, NetSound, SaveIntent, HashTaken, Succeeded, Refused, Rewrites;
    assert RunSound(s, s.runs[w], overlap);
    var key, hash := s.runs[w].key, s.runs[w].hash;
    if SaveIntent(s.db, key, hash).Committed? {
      SaveEffect(s.db, key, hash, overlap == Never);
      var next := SaveIntent(s.db, key, hash).db;
      RewrittenEnd(s.db, next, key);
      if Tracked(key, overlap) {
        NotEnded(s, key, overlap);
      }
      RewriteTouches(s.db, next, key);
      StepKept(s, DoSave(s, w), w, overlap);
    } else {
      QuietStepKept(s, DoSave(s, w), w, overlap);
    }
  }

  lemma RewriteTouches(db: Db, next: Db, key: Key)
    requires Rewrites(db, next, key)
    ensures Touches(db, next, key)
    ensures forall k :: BeingSettled(next, k) == BeingSettled(db, k)
  {
  }

  // Sending a hash decides nothing.
  lemma FatesKept(net: Network, key: Key, hash: Hash)
    ensures forall h, fate :: HasFate(net, h, fate) ==> HasFate(Transmit(net, key, hash), h, fate)
    ensures FatesSound(net) ==> FatesSound(Transmit(net, key, hash))
  {
    var sent := Transmit(net, key, hash);
    if FatesSound(net) {
      forall h | h in sent.fate
        ensures exists sender: Key :: (sender, h) in sent.submitted
      {
        if h in net.fate {
          var sender :| (sender, h) in net.submitted;
          assert (sender, h) in sent.submitted;
        } else {
          assert (key, h) in sent.submitted;
        }
      }
    }
  }

  lemma OutcomesKept(db: Db, net: Network, next: Network, overlap: Overlap)
    requires OutcomesTrue(db, net, overlap) && forall h, fate :: HasFate(net, h, fate) ==> HasFate(next, h, fate)
    ensures OutcomesTrue(db, next, overlap)
  {
    hide Succeeded, Refused, HasFate;
    forall key | key in db.intents && Tracked(key, overlap)
      ensures OutcomeTrue(db, next, key)
    {
      assert OutcomeTrue(db, net, key);
    }
  }

  lemma SubmitNetKept(s: System, w: nat, overlap: Overlap)
    requires Sound(s, overlap) && w in s.runs && s.runs[w].Saved?
    ensures NetSound(s.db, DoSubmit(s, w).net, overlap)
    ensures forall hash, fate :: HasFate(s.net, hash, fate) ==> HasFate(DoSubmit(s, w).net, hash, fate)
  {
    hide Inv, Succeeded, Refused, OutcomesTrue, FatesSound;
    assert RunSound(s, s.runs[w], overlap);
    FatesKept(s.net, s.runs[w].key, s.runs[w].hash);
    OutcomesKept(s.db, s.net, DoSubmit(s, w).net, overlap);
  }

  lemma SubmitKept(s: System, w: nat, overlap: Overlap)
    requires Sound(s, overlap) && w in s.runs && s.runs[w].Saved?
    ensures Sound(DoSubmit(s, w), overlap) && Kept(s.db, DoSubmit(s, w).db, overlap == Never)
  {
    hide Extends, NetSound, ViewOk, ViewOf, TreasuryOk, BindingsOk, CheckoutsOk, OutboxOk;
    var next := DoSubmit(s, w);
    SubmitNetKept(s, w, overlap);
    Unchanged(s.db, overlap == Never);
    assert RunSound(s, s.runs[w], overlap);
    forall other | other in next.runs
      ensures RunSound(next, next.runs[other], overlap)
    {
      if other != w {
        assert RunSound(s, s.runs[other], overlap) && Apart(s.runs[w], s.runs[other], overlap);
      }
    }
    forall w1, w2 | w1 in next.runs && w2 in next.runs && w1 != w2
      ensures Apart(next.runs[w1], next.runs[w2], overlap)
    {
      assert Apart(s.runs[w1], s.runs[w2], overlap);
    }
  }

  lemma ReplyKept(s: System, w: nat, answer: Answer, overlap: Overlap)
    requires Sound(s, overlap) && w in s.runs
    requires || (s.runs[w].Sent? && TrueOfSubmit(s.net, s.runs[w].hash, answer))
             || (s.runs[w].Looking? && TrueOfFind(s.net, s.runs[w].hash, answer))
    ensures Sound(DoReply(s, w, answer), overlap) && Kept(s.db, DoReply(s, w, answer).db, overlap == Never)
  {
    hide Inv, Extends, NetSound;
    assert RunSound(s, s.runs[w], overlap);
    QuietStepKept(s, DoReply(s, w, answer), w, overlap);
  }

  lemma OutcomeOf(s: System, key: Key, overlap: Overlap)
    requires NetSound(s.db, s.net, overlap) && key in s.db.intents && Tracked(key, overlap)
    ensures OutcomeTrue(s.db, s.net, key)
  {
  }

  lemma ConfirmStepKept(s: System, w: nat, ledgerAt: Time, now: Time, overlap: Overlap)
    requires Sound(s, overlap) && w in s.runs && (s.runs[w].Answered? || s.runs[w].Found?) && s.runs[w].answer == SaysConfirmed
    ensures var next := End(Keep(s, ConfirmIntent(s.db, s.runs[w].key, s.runs[w].hash, ledgerAt, now)), w);
            Sound(next, overlap) && Kept(s.db, next.db, overlap == Never)
  {
    hide Inv, Extends, ConfirmIntent, NetSound, Succeeded, Refused, Touches;
    var key, hash := s.runs[w].key, s.runs[w].hash;
    var next := End(Keep(s, ConfirmIntent(s.db, key, hash, ledgerAt, now)), w);
    assert RunSound(s, s.runs[w], overlap);
    if ConfirmIntent(s.db, key, hash, ledgerAt, now).Committed? {
      ConfirmEffect(s.db, key, hash, ledgerAt, now, overlap == Never);
      if Tracked(key, overlap) {
        OutcomeOf(s, key, overlap);
      }
      StepKept(s, next, w, overlap);
    } else {
      QuietStepKept(s, next, w, overlap);
    }
  }

  lemma RefuseStepKept(s: System, w: nat, overlap: Overlap)
    requires Sound(s, overlap) && w in s.runs && (s.runs[w].Answered? || s.runs[w].Found?) && s.runs[w].answer == SaysPermanent
    ensures var next := End(Keep(s, RefuseIntent(s.db, s.runs[w].key)), w);
            Sound(next, overlap) && Kept(s.db, next.db, overlap == Never)
  {
    hide Inv, Extends, RefuseIntent, NetSound, Succeeded, Refused, Touches;
    var key := s.runs[w].key;
    var next := End(Keep(s, RefuseIntent(s.db, key)), w);
    assert RunSound(s, s.runs[w], overlap);
    if RefuseIntent(s.db, key).Committed? {
      RefuseEffect(s.db, key, overlap == Never);
      StepKept(s, next, w, overlap);
    } else {
      QuietStepKept(s, next, w, overlap);
    }
  }

  // A hash that never reaches the ledger has ended nothing.
  lemma RejectedEndsNothing(s: System, w: nat, overlap: Overlap)
    requires NetSound(s.db, s.net, overlap) && w in s.runs && RunSound(s, s.runs[w], overlap) && Tracked(s.runs[w].key, overlap)
    requires s.runs[w].Answered? && s.runs[w].answer == SaysRetryable
    ensures Stored(s.db, s.runs[w].key, s.runs[w].hash) && HasFate(s.net, s.runs[w].hash, Rejected)
    ensures !Succeeded(s.db, s.runs[w].key) && !Refused(s.db, s.runs[w].key)
  {
    hide Succeeded, Refused;
    OutcomeOf(s, s.runs[w].key, overlap);
  }

  lemma ResetStepKept(s: System, w: nat, overlap: Overlap)
    requires Sound(s, overlap) && w in s.runs && s.runs[w].Answered? && s.runs[w].answer == SaysRetryable
    ensures var next := BackOff(Keep(s, ResetIntent(s.db, s.runs[w].key, s.runs[w].hash)), w, s.runs[w].key);
            Sound(next, overlap) && Kept(s.db, next.db, overlap == Never)
  {
    hide Inv, Extends, ResetIntent, NetSound, Succeeded, Refused, Rewrites, Touches, Holds;
    var key, hash := s.runs[w].key, s.runs[w].hash;
    var next := BackOff(Keep(s, ResetIntent(s.db, key, hash)), w, key);
    assert RunSound(s, s.runs[w], overlap);
    if ResetIntent(s.db, key, hash).Committed? {
      ResetEffect(s.db, key, hash, overlap == Never);
      RewrittenEnd(s.db, next.db, key);
      RewriteTouches(s.db, next.db, key);
      if Tracked(key, overlap) {
        RejectedEndsNothing(s, w, overlap);
      }
      StepKept(s, next, w, overlap);
    } else {
      QuietStepKept(s, next, w, overlap);
    }
  }

  lemma UnknownStepKept(s: System, w: nat, overlap: Overlap)
    requires Sound(s, overlap) && w in s.runs && s.runs[w].Answered? && s.runs[w].key.purpose == Transfer
    ensures var next := Goto(Keep(s, MarkUnknown(s.db, s.runs[w].key)), w, Looking(s.runs[w].key, s.runs[w].hash));
            Sound(next, overlap) && Kept(s.db, next.db, overlap == Never)
  {
    hide Inv, Extends, MarkUnknown, NetSound, Succeeded, Refused, Rewrites, Touches;
    var key := s.runs[w].key;
    assert RunSound(s, s.runs[w], overlap);
    MarkUnknownEffect(s.db, key, overlap == Never);
    var next := MarkUnknown(s.db, key).db;
    RewrittenEnd(s.db, next, key);
    RewriteTouches(s.db, next, key);
    if Tracked(key, overlap) {
      OutcomeOf(s, key, overlap);
    }
    StepKept(s, Goto(Keep(s, MarkUnknown(s.db, key)), w, Looking(key, s.runs[w].hash)), w, overlap);
  }

  // Writes to the outbox alone.
  lemma OutboxStepKept(s: System, outbox: seq<Message>, overlap: Overlap)
    requires Sound(s, overlap)
    requires |outbox| == |s.db.outbox|
    requires forall i :: 0 <= i < |outbox| ==> SameJob(s.db.outbox[i], outbox[i])
    ensures Sound(s.(db := s.db.(outbox := outbox)), overlap) && Kept(s.db, s.db.(outbox := outbox), overlap == Never)
  {
    hide Inv, Extends;
    OutboxRewriteKept(s.db, outbox, overlap == Never);
    var next := s.(db := s.db.(outbox := outbox));
    forall w | w in next.runs
      ensures RunSound(next, next.runs[w], overlap)
    {
      assert RunSound(s, s.runs[w], overlap);
    }
  }

  lemma RetryStepKept(s: System, w: nat, availableAt: Time, overlap: Overlap)
    requires Sound(s, overlap) && w in s.runs
    ensures var next := End(Keep(s, RetryLater(s.db, s.runs[w].key, availableAt)), w);
            Sound(next, overlap) && Kept(s.db, next.db, overlap == Never)
  {
    hide Inv, Extends, NetSound, RunSound;
    var key := s.runs[w].key;
    if RetryLater(s.db, key, availableAt).Committed? {
      var outbox := Reschedule(s.db.outbox, SettleOnramp, key.order, availableAt);
      OutboxStepKept(s, outbox, overlap);
      QuietStepKept(s.(db := s.db.(outbox := outbox)), End(s.(db := s.db.(outbox := outbox)), w), w, overlap);
    } else {
      QuietStepKept(s, End(s, w), w, overlap);
    }
  }

  lemma BackOffKept(s: System, w: nat, overlap: Overlap)
    requires Sound(s, overlap) && w in s.runs && !s.runs[w].BackingOff?
    ensures Sound(BackOff(s, w, s.runs[w].key), overlap) && Kept(s.db, BackOff(s, w, s.runs[w].key).db, overlap == Never)
  {
    hide Inv, Extends, NetSound;
    assert RunSound(s, s.runs[w], overlap);
    QuietStepKept(s, BackOff(s, w, s.runs[w].key), w, overlap);
  }

  lemma HandOverKept(s: System, w: nat, overlap: Overlap)
    requires Sound(s, overlap) && w in s.runs && s.runs[w].Answered? && s.runs[w].key.purpose == Retirement
    ensures var next := Goto(s, w, Looking(s.runs[w].key, s.runs[w].hash));
            Sound(next, overlap) && Kept(s.db, next.db, overlap == Never)
  {
    hide Inv, Extends, NetSound;
    assert RunSound(s, s.runs[w], overlap);
    QuietStepKept(s, Goto(s, w, Looking(s.runs[w].key, s.runs[w].hash)), w, overlap);
  }

  lemma ActKept(s: System, w: nat, ledgerAt: Time, now: Time, overlap: Overlap)
    requires Sound(s, overlap) && w in s.runs && (s.runs[w].Answered? || s.runs[w].Found? || s.runs[w].BackingOff?)
    ensures Sound(DoAct(s, w, ledgerAt, now), overlap) && Kept(s.db, DoAct(s, w, ledgerAt, now).db, overlap == Never)
  {
    hide Sound, Kept, RetryLater, ConfirmIntent, RefuseIntent, ResetIntent, MarkUnknown, BackOff;
    var run := s.runs[w];
    RunPurpose(s, w, overlap);
    if run.BackingOff? {
      RetryStepKept(s, w, now, overlap);
    } else {
      match run.answer
      case SaysConfirmed => ConfirmStepKept(s, w, ledgerAt, now, overlap);
      case SaysPermanent => RefuseStepKept(s, w, overlap);
      case SaysPending => BackOffKept(s, w, overlap);
      case SaysRetryable => if run.Found? { BackOffKept(s, w, overlap); } else { ResetStepKept(s, w, overlap); }
      case _ =>
        if run.Found? { BackOffKept(s, w, overlap); }
        else if run.key.purpose == Transfer { UnknownStepKept(s, w, overlap); }
        else { HandOverKept(s, w, overlap); }
    }
  }

  lemma RunPurpose(s: System, w: nat, overlap: Overlap)
    requires Sound(s, overlap) && w in s.runs
    ensures s.runs[w].key.purpose != Deposit
  {
    hide Inv, NetSound;
    assert RunSound(s, s.runs[w], overlap);
  }

  // An open message of a worker topic belongs to an order being worked on,
  // and its intent is there.
  lemma OpenJobHasIntent(db: Db, index: nat, strict: bool)
    requires Inv(db, strict) && index < |db.outbox| && !db.outbox[index].processed && db.outbox[index].topic != SimulatePayout
    ensures JobKey(db.outbox[index]) in db.intents
    ensures JobKey(db.outbox[index]).purpose == Transfer ==> BeingSettled(db, JobKey(db.outbox[index]))
  {
    hide Replay, TreasuryOk, HashesUnique, BindingsOk, CheckoutsOk, OutboxOk;
    var message := db.outbox[index];
    At(db, message.order, strict);
    OpenNone(db.outbox, message.topic, message.order);
    assert IsOpen(db.outbox[index], message.topic, message.order);
  }

  lemma LeaseKept(s: System, w: nat, index: nat, owner: string, until: Time, overlap: Overlap)
    requires Sound(s, overlap) && w !in s.runs && index < |s.db.outbox|
    requires !s.db.outbox[index].processed && s.db.outbox[index].topic != SimulatePayout
    requires overlap == Never ==> Exclusive(s, JobKey(s.db.outbox[index]))
    ensures var next := Goto(Keep(s, TakeLease(s.db, index, owner, until)), w, Leased(JobKey(s.db.outbox[index])));
            Sound(next, overlap) && Kept(s.db, next.db, overlap == Never)
  {
    hide Inv, Extends, NetSound;
    var key := JobKey(s.db.outbox[index]);
    OpenJobHasIntent(s.db, index, overlap == Never);
    var taken := Keep(s, TakeLease(s.db, index, owner, until));
    OutboxStepKept(s, taken.db.outbox, overlap);
    var next := Goto(taken, w, Leased(key));
    forall other | other in next.runs
      ensures RunSound(next, next.runs[other], overlap)
    {
      if other != w {
        assert RunSound(taken, taken.runs[other], overlap);
      }
    }
    forall w1, w2 | w1 in next.runs && w2 in next.runs && w1 != w2
      ensures Apart(next.runs[w1], next.runs[w2], overlap)
    {
      if w1 != w && w2 != w {
        assert Apart(taken.runs[w1], taken.runs[w2], overlap);
      }
    }
  }

  // An order with a transfer was handed over.
  lemma TransferHandedOver(db: Db, key: Key, strict: bool)
    requires Inv(db, strict) && key in db.intents && key.purpose == Transfer
    ensures key.order in db.orders && HandedOver(db.orders[key.order].status)
  {
    hide Replay, TreasuryOk, HashesUnique, BindingsOk, CheckoutsOk, OutboxOk;
    At(db, key.order, strict);
    assert key == Key(key.order, Transfer);
  }

  // Intents already there end as they did; new ones have not ended.
  lemma EndsElsewhere(db: Db, next: Db, key: Key, strict: bool)
    requires Inv(db, strict) && LeavesWorkAlone(db, next) && key in next.intents && key.purpose != Deposit
    ensures key in db.intents ==>
              next.intents[key] == db.intents[key]
              && Succeeded(next, key) == Succeeded(db, key) && Refused(next, key) == Refused(db, key)
    ensures key !in db.intents ==> next.intents[key].hash.None? && !Succeeded(next, key) && !Refused(next, key)
  {
    hide Inv;
    if key in db.intents && key.purpose == Transfer {
      TransferHandedOver(db, key, strict);
    }
  }

  lemma NetElsewhere(db: Db, next: Db, net: Network, overlap: Overlap)
    requires Inv(db, overlap == Never) && LeavesWorkAlone(db, next) && NetSound(db, net, overlap)
    ensures NetSound(next, net, overlap)
  {
    hide Inv, FatesSound, Succeeded, Refused;
    forall key | key in next.intents && Tracked(key, overlap)
      ensures OutcomeTrue(next, net, key)
    {
      EndsElsewhere(db, next, key, overlap == Never);
      if key in db.intents {
        assert OutcomeTrue(db, net, key);
      }
    }
  }

  lemma ElsewhereKept(s: System, call: Call, overlap: Overlap)
    requires Sound(s, overlap) && WellFormed(s.db, call) && Perform(s.db, call).Committed?
    ensures var next := s.(db := Perform(s.db, call).db);
            Sound(next, overlap) && Kept(s.db, next.db, overlap == Never)
  {
    hide Inv, Extends, Perform, NetSound, Succeeded, Refused;
    PerformKept(s.db, call, overlap == Never);
    PerformLeavesWorkAlone(s.db, call);
    var next := s.(db := Perform(s.db, call).db);
    NetElsewhere(s.db, next.db, s.net, overlap);
    forall w | w in next.runs
      ensures RunSound(next, next.runs[w], overlap)
    {
      assert RunSound(s, s.runs[w], overlap);
      EndsElsewhere(s.db, next.db, s.runs[w].key, overlap == Never);
    }
  }

  lemma ResolveKept(s: System, hash: Hash, fate: Fate, overlap: Overlap)
    requires Sound(s, overlap) && HasFate(s.net, hash, InFlight)
    ensures Sound(s.(net := s.net.(fate := s.net.fate[hash := fate])), overlap)
    ensures Kept(s.db, s.db, overlap == Never)
  {
    hide Inv, Extends;
    var next := s.(net := s.net.(fate := s.net.fate[hash := fate]));
    Unchanged(s.db, overlap == Never);
    forall h, f | HasFate(s.net, h, f) && f != InFlight
      ensures HasFate(next.net, h, f)
    {
    }
    forall w | w in next.runs
      ensures RunSound(next, next.runs[w], overlap)
    {
      assert RunSound(s, s.runs[w], overlap);
    }
  }

  lemma CrashKept(s: System, w: nat, overlap: Overlap)
    requires Sound(s, overlap) && w in s.runs
    ensures Sound(End(s, w), overlap) && Kept(s.db, s.db, overlap == Never)
  {
    hide Inv, Extends, NetSound, RunSound;
    QuietStepKept(s, End(s, w), w, overlap);
  }

  lemma LeasePayoutKept(s: System, index: nat, owner: string, until: Time, overlap: Overlap)
    requires Sound(s, overlap) && index < |s.db.outbox|
    ensures var next := Keep(s, TakeLease(s.db, index, owner, until));
            Sound(next, overlap) && Kept(s.db, next.db, overlap == Never)
  {
    hide Sound, Kept;
    OutboxStepKept(s, TakeLease(s.db, index, owner, until).db.outbox, overlap);
  }

  // One step of anything, however far settlement runs may overlap.
  lemma StepSound(s: System, action: Action, overlap: Overlap)
    requires Sound(s, overlap) && Enabled(s, action, overlap)
    ensures Sound(After(s, action), overlap) && Kept(s.db, After(s, action).db, overlap == Never)
  {
    hide Sound, Kept, WellFormed, Perform, SimulateRetirement, TakeLease, Exclusive, SecondBuilder, HasFate, TrueOfSubmit, TrueOfFind,
      DoLoad, DoSave, DoSubmit, DoReply, DoAct;
    match action
    case Elsewhere(call) =>
      if Perform(s.db, call).Committed? { ElsewhereKept(s, call, overlap); } else { StillSound(s, overlap); }
    case LeasePayout(index, owner, now, duration, _) => LeasePayoutKept(s, index, owner, now + duration, overlap);
    case Lease(w, index, owner, now, duration, _) => LeaseKept(s, w, index, owner, now + duration, overlap);
    case Load(w) => LoadKept(s, w, overlap);
    case Build(w, hash) => BuildKept(s, w, hash, overlap);
    case Abandon(w) => BackOffKept(s, w, overlap);
    case Simulate(w, at) => SimulateKept(s, w, at, overlap);
    case Save(w) => SaveKept(s, w, overlap);
    case Submit(w) => SubmitKept(s, w, overlap);
    case Reply(w, answer) => ReplyKept(s, w, answer, overlap);
    case Act(w, ledgerAt, at) => ActKept(s, w, ledgerAt, at, overlap);
    case Crash(w) => CrashKept(s, w, overlap);
    case Resolve(hash, fate) => ResolveKept(s, hash, fate, overlap);
  }

  lemma StillSound(s: System, overlap: Overlap)
    requires Sound(s, overlap)
    ensures Kept(s.db, s.db, overlap == Never)
  {
    hide Inv, Extends, NetSound, RunsSound;
    Unchanged(s.db, overlap == Never);
  }
}
