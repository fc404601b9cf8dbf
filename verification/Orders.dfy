// The order state machine (internal/entity/order.go) and the meaning of an
// order's event log: replaying it through the machine.
module Orders {
  import opened Prelude

  datatype Status =
    | Created
    | PaymentPending
    | PaymentConfirmed
    | StellarProcessing
    | Completed
    | Expired
    | PaymentFailed
    | StellarFailed
    | Cancelled
    | AssetPending
    | AssetReceived
    | AssetInvalid
    | RetirementProcessing
    | WithdrawalProcessing
    | RetirementFailed
    | WithdrawalFailed

  predicate AllowedTransition(current: Status, next: Status) {
    match current
    case Created => next in {PaymentPending, AssetPending, PaymentFailed, Cancelled}
    case PaymentPending => next in {PaymentConfirmed, Expired, PaymentFailed, Cancelled}
    case PaymentConfirmed => next == StellarProcessing
    case StellarProcessing => next in {Completed, StellarFailed}
    case AssetPending => next in {AssetReceived, Expired, AssetInvalid, Cancelled}
    case AssetReceived => next == RetirementProcessing
    case RetirementProcessing => next in {WithdrawalProcessing, RetirementFailed}
    case WithdrawalProcessing => next in {Completed, WithdrawalFailed}
    case _ => false
  }

  // A status is final when the machine allows nothing after it.
  ghost predicate Final(status: Status) {
    forall next: Status :: !AllowedTransition(status, next)
  }

  datatype Aggregate = Aggregate(status: Status, version: nat)

  function Transition(order: Aggregate, next: Status): Option<Aggregate> {
    if AllowedTransition(order.status, next) then Some(Aggregate(next, order.version + 1)) else None
  }

  class Order {
    var status: Status
    var version: nat

    constructor (status: Status, version: nat)
      ensures this.status == status && this.version == version
    {
      this.status := status;
      this.version := version;
    }

    method Advance(next: Status) returns (ok: bool)
      modifies this
      ensures ok <==> Transition(old(Aggregate(status, version)), next).Some?
      ensures ok ==> Some(Aggregate(status, version)) == Transition(old(Aggregate(status, version)), next)
      ensures !ok ==> unchanged(this)
    {
      if !AllowedTransition(status, next) {
        return false;
      }
      status := next;
      version := version + 1;
      return true;
    }
  }

  // One row of order_events.
  datatype Event = Event(version: nat, kind: string, previous: Option<Status>, next: Status)

  // Folds Transition over the log. The first event creates the aggregate; each
  // later one must continue from the status and version reached so far.
  function Replay(log: seq<Event>): Option<Aggregate> {
    if |log| == 0 then None
    else
      var last := log[|log| - 1];
      if |log| == 1 then
        if last.version == 1 && last.previous == None && last.next == Created
        then Some(Aggregate(Created, 1)) else None
      else
        Continue(Replay(log[..|log| - 1]), last)
  }

  function Continue(reached: Option<Aggregate>, event: Event): Option<Aggregate> {
    if reached.Some? && event.previous == Some(reached.value.status) && event.version == reached.value.version + 1
    then Transition(reached.value, event.next)
    else None
  }

  lemma ReplayAppend(log: seq<Event>, event: Event)
    requires |log| > 0
    ensures Replay(log + [event]) == Continue(Replay(log), event)
  {
    assert (log + [event])[..|log|] == log;
  }

  // Numbered from 1, and each event starting where the one before it ended.
  ghost predicate Linked(log: seq<Event>) {
    && log != [] && log[0].previous == None
    && (forall i :: 0 <= i < |log| ==> log[i].version == i + 1)
    && (forall i :: 1 <= i < |log| ==> log[i].previous == Some(log[i - 1].next))
  }

  // What an order_events table says when it is sound, without folding:
  // versions 1..n, each event starting where the one before it ended, each a
  // transition the machine allows.
  ghost predicate Chained(log: seq<Event>) {
    && Linked(log) && log[0].next == Created
    && (forall i :: 1 <= i < |log| ==> AllowedTransition(log[i - 1].next, log[i].next))
  }

  // Replay succeeds exactly on the sound logs, and reaches the last event's
  // status at a version equal to the length of the log.
  lemma {:induction false} ReplayIffChained(log: seq<Event>)
    ensures Replay(log).Some? <==> Chained(log)
    ensures Chained(log) ==> Replay(log) == Some(Aggregate(log[|log| - 1].next, |log|))
  {
    if |log| > 1 {
      var init, last := log[..|log| - 1], log[|log| - 1];
      ReplayIffChained(init);
      if Chained(init) {
        assert log[|log| - 2] == init[|init| - 1];
        assert forall i :: 0 <= i < |init| ==> init[i] == log[i];
      }
      if Chained(log) {
        assert forall i :: 0 <= i < |init| ==> init[i] == log[i];
        assert Chained(init);
      }
    }
  }

  function Rank(status: Status): nat {
    match status
    case Created => 1
    case PaymentPending => 2
    case AssetPending => 2
    case PaymentConfirmed => 3
    case AssetReceived => 3
    case StellarProcessing => 4
    case RetirementProcessing => 4
    case WithdrawalProcessing => 5
    case _ => 6
  }

  // No order visits a status twice, and no order has more than six events.
  lemma {:induction false} LogsAreShortAndAcyclic(log: seq<Event>)
    requires Replay(log).Some?
    ensures |log| <= Rank(log[|log| - 1].next) <= 6
    ensures forall i, j :: 0 <= i < j < |log| ==> Rank(log[i].next) < Rank(log[j].next)
  {
    ReplayIffChained(log);
    if |log| > 1 {
      var init := log[..|log| - 1];
      ReplayIffChained(init);
      LogsAreShortAndAcyclic(init);
      assert Rank(log[|log| - 2].next) < Rank(log[|log| - 1].next);
      assert init[|init| - 1] == log[|log| - 2];
      forall i, j | 0 <= i < j < |log|
        ensures Rank(log[i].next) < Rank(log[j].next)
      {
        if j == |log| - 1 && i < |log| - 2 {
          assert Rank(init[i].next) < Rank(init[|init| - 1].next);
        } else if j < |log| - 1 {
          assert Rank(init[i].next) < Rank(init[j].next);
        }
      }
    }
  }

  function Statuses(log: seq<Event>): (statuses: seq<Status>)
    ensures |statuses| == |log| && forall i :: 0 <= i < |log| ==> statuses[i] == log[i].next
  {
    if log == [] then [] else Statuses(log[..|log| - 1]) + [log[|log| - 1].next]
  }

  // The lives an order may have, from its creation to its end.
  predicate IsLife(statuses: seq<Status>) {
    statuses in {
    [Created, Cancelled], [Created, PaymentFailed],
    [Created, PaymentPending, Expired], [Created, PaymentPending, PaymentFailed], [Created, PaymentPending, Cancelled],
    [Created, PaymentPending, PaymentConfirmed, StellarProcessing, Completed],
    [Created, PaymentPending, PaymentConfirmed, StellarProcessing, StellarFailed],
    [Created, AssetPending, Expired], [Created, AssetPending, AssetInvalid], [Created, AssetPending, Cancelled],
    [Created, AssetPending, AssetReceived, RetirementProcessing, RetirementFailed],
    [Created, AssetPending, AssetReceived, RetirementProcessing, WithdrawalProcessing, Completed],
    [Created, AssetPending, AssetReceived, RetirementProcessing, WithdrawalProcessing, WithdrawalFailed]}
  }

  // An order has lived the beginning of one of them.
  ghost predicate Lived(statuses: seq<Status>) {
    exists life :: IsLife(life) && statuses <= life
  }

  lemma {:induction false} SoundLogsAreLives(log: seq<Event>)
    requires Replay(log).Some?
    ensures Lived(Statuses(log))
  {
    hide IsLife;
    ReplayIffChained(log);
    var init := log[..|log| - 1];
    if init == [] {
      assert Statuses(log) == [Created];
      AtFirst();
    } else {
      ReplayIffChained(init);
      SoundLogsAreLives(init);
      assert init[|init| - 1] == log[|log| - 2];
      LivesGoOn(Statuses(init), log[|log| - 1].next);
    }
  }

  lemma {:induction false} AtFirst()
    ensures Lived([Created])
  {
    assert IsLife([Created, Cancelled]) && [Created] <= [Created, Cancelled];
  }

  // A life that takes this step.
  function LifeThrough(current: Status, next: Status): seq<Status> {
    match next
    case PaymentPending => [Created, PaymentPending, Expired]
    case PaymentConfirmed => [Created, PaymentPending, PaymentConfirmed, StellarProcessing, Completed]
    case StellarProcessing => [Created, PaymentPending, PaymentConfirmed, StellarProcessing, Completed]
    case StellarFailed => [Created, PaymentPending, PaymentConfirmed, StellarProcessing, StellarFailed]
    case PaymentFailed => if current == Created then [Created, PaymentFailed] else [Created, PaymentPending, PaymentFailed]
    case Expired => if current == PaymentPending then [Created, PaymentPending, Expired] else [Created, AssetPending, Expired]
    case Cancelled =>
      if current == Created then [Created, Cancelled]
      else if current == PaymentPending then [Created, PaymentPending, Cancelled] else [Created, AssetPending, Cancelled]
    case Completed =>
      if current == StellarProcessing then [Created, PaymentPending, PaymentConfirmed, StellarProcessing, Completed]
      else [Created, AssetPending, AssetReceived, RetirementProcessing, WithdrawalProcessing, Completed]
    case AssetPending => [Created, AssetPending, Expired]
    case AssetInvalid => [Created, AssetPending, AssetInvalid]
    case RetirementFailed => [Created, AssetPending, AssetReceived, RetirementProcessing, RetirementFailed]
    case WithdrawalFailed => [Created, AssetPending, AssetReceived, RetirementProcessing, WithdrawalProcessing, WithdrawalFailed]
    case _ => [Created, AssetPending, AssetReceived, RetirementProcessing, WithdrawalProcessing, Completed]
  }

  lemma {:induction false} LivesGoOn(statuses: seq<Status>, next: Status)
    requires statuses != [] && Lived(statuses) && AllowedTransition(statuses[|statuses| - 1], next)
    ensures Lived(statuses + [next])
  {
    hide IsLife, LifeThrough, AllowedTransition;
    var current := statuses[|statuses| - 1];
    var life :| IsLife(life) && statuses <= life;
    PathsMeet(life, |statuses| - 1, next);
    assert IsLife(LifeThrough(current, next)) && statuses + [next] <= LifeThrough(current, next);
  }

  // However an order got to a status, the life through its next step began
  // the same way.
  lemma {:induction false} PathsMeet(life: seq<Status>, i: nat, next: Status)
    requires IsLife(life) && i < |life| && AllowedTransition(life[i], next)
    ensures var on := LifeThrough(life[i], next);
            IsLife(on) && i + 1 < |on| && on[i + 1] == next && life[..i + 1] == on[..i + 1]
  {
    assert i == 0 || i == 1 || i == 2 || i == 3 || i == 4 || i == 5;
  }

  // Conversely every beginning of a life is allowed, so a log whose events are
  // numbered and linked is sound exactly when an order may live like that.
  lemma {:induction false} LivesAreAllowed(log: seq<Event>)
    requires Linked(log)
    ensures Replay(log).Some? <==> Lived(Statuses(log))
  {
    ReplayIffChained(log);
    if Replay(log).Some? {
      SoundLogsAreLives(log);
    }
    if Lived(Statuses(log)) {
      LivedIsChained(log);
    }
  }

  lemma {:induction false} LivedIsChained(log: seq<Event>)
    requires Linked(log) && Lived(Statuses(log))
    ensures Chained(log)
  {
    hide IsLife, AllowedTransition;
    var life :| IsLife(life) && Statuses(log) <= life;
    LivesBegin(life);
    assert Statuses(log)[0] == life[0] && |log| <= |life|;
    forall i | 1 <= i < |log|
      ensures AllowedTransition(log[i - 1].next, log[i].next)
    {
      assert Statuses(log)[i - 1] == life[i - 1] && Statuses(log)[i] == life[i];
      LivesStep(life, i);
    }
  }

  lemma {:induction false} LivesBegin(life: seq<Status>)
    requires IsLife(life)
    ensures |life| >= 2 && life[0] == Created
  {
  }

  lemma {:induction false} LivesStep(life: seq<Status>, i: nat)
    requires IsLife(life) && 1 <= i < |life|
    ensures AllowedTransition(life[i - 1], life[i])
  {
  }

  // An order whose status is final never gains another event: any sound log
  // extending its log is its log.
  lemma FinalStatusEndsTheLog(log: seq<Event>, longer: seq<Event>)
    requires Replay(log).Some? && Final(Replay(log).value.status)
    requires Replay(longer).Some? && log <= longer
    ensures longer == log
  {
    ReplayIffChained(log);
    ReplayIffChained(longer);
    assert longer[|log| - 1] == log[|log| - 1];
    assert |log| < |longer| ==> AllowedTransition(longer[|log| - 1].next, longer[|log|].next);
  }
}
