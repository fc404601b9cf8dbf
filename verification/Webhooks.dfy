// Webhook delivery of one event: numbered attempts per endpoint, each under a
// lease, and the outbox messages that drive them.
module Webhooks {
  import opened Prelude

  type Endpoint = string
  type Time = int

  datatype Status = InFlight | RetryScheduled | Superseded | ReplayPending | Delivered | Failed | Exhausted
  datatype Attempt = Attempt(number: nat, status: Status, lease: Option<Time>, next: Option<Time>)
  datatype Job = Job(processed: bool, availableAt: Time)

  // The rows of one event. An attempt's id is its endpoint and position.
  datatype Event = Event(attempts: map<Endpoint, seq<Attempt>>, jobs: seq<Job>)

  predicate Terminal(status: Status) {
    status in {Delivered, Failed, Exhausted}
  }

  function Of(s: Event, endpoint: Endpoint): seq<Attempt> {
    if endpoint in s.attempts then s.attempts[endpoint] else []
  }

  // Where the attempt with the highest number is.
  function Newest(attempts: seq<Attempt>): (i: nat)
    requires attempts != []
    ensures i < |attempts| && forall j :: 0 <= j < |attempts| ==> attempts[j].number <= attempts[i].number
  {
    var last := |attempts| - 1;
    if last == 0 then 0
    else
      var i := Newest(attempts[..last]);
      if attempts[last].number > attempts[i].number then last else i
  }

  // ---------------------------------------------------------------- classification

  const SECOND := 1_000_000_000
  const HOUR := 3_600 * SECOND

  datatype Result = Result(status: Status, next: Option<Time>)

  function Shift(attempt: nat): nat {
    if attempt <= 1 then 0 else if attempt > 7 then 6 else attempt - 1
  }

  function Power2(k: nat): nat {
    if k == 0 then 1 else 2 * Power2(k - 1)
  }

  function Delay(attempt: nat, retryDelay: int): int {
    var delay := (if retryDelay <= 0 then SECOND else retryDelay) * Power2(Shift(attempt));
    if delay > HOUR then HOUR else delay
  }

  // `status` is zero when no response came, and `failed` says the request or
  // the reading of the response went wrong.
  function Classify(status: int, failed: bool, attempt: nat, maxAttempts: nat, now: Time, retryDelay: int): Result {
    if !failed && 200 <= status < 300 then Result(Delivered, None)
    else if !(failed || status in {408, 409, 425, 429} || status >= 500) then Result(Failed, None)
    else if attempt >= maxAttempts then Result(Exhausted, None)
    else Result(RetryScheduled, Some(now + Delay(attempt, retryDelay)))
  }

  // Exactly the attempts below the limit whose failure may pass are retried,
  // later, and at most an hour later; the wait never shrinks from one attempt
  // to the next.
  lemma RetriesAreBounded(status: int, failed: bool, attempt: nat, maxAttempts: nat, now: Time, retryDelay: int)
    ensures var result := Classify(status, failed, attempt, maxAttempts, now, retryDelay);
            && (result.status == RetryScheduled <==>
                  attempt < maxAttempts && (failed || status in {408, 409, 425, 429} || status >= 500))
            && (result.next.Some? <==> result.status == RetryScheduled)
            && (result.next.Some? ==> now < result.next.value <= now + HOUR)
            && (result.status == Exhausted ==> attempt >= maxAttempts)
            && (Terminal(result.status) || result.status == RetryScheduled)
    ensures Delay(attempt, retryDelay) <= Delay(attempt + 1, retryDelay)
  {
    var base := if retryDelay <= 0 then SECOND else retryDelay;
    PowersGrow(Shift(attempt), Shift(attempt + 1));
    Grows(base, Power2(Shift(attempt)), Power2(Shift(attempt + 1)));
  }

  // What an answer means: a 2xx delivers; anything that may pass is tried
  // again until the limit and exhausts the attempts there; the rest fails.
  lemma OutcomeIsRight(status: int, failed: bool, attempt: nat, maxAttempts: nat, now: Time, retryDelay: int)
    ensures var result := Classify(status, failed, attempt, maxAttempts, now, retryDelay);
            var passes := failed || status in {408, 409, 425, 429} || status >= 500;
            && (result.status == Delivered <==> !failed && 200 <= status <= 299)
            && (result.status == Failed <==> !passes && (status < 200 || status > 299))
            && (result.status == Exhausted <==> passes && attempt >= maxAttempts)
            && (result.status == RetryScheduled <==> passes && attempt < maxAttempts)
            && result.status in {Delivered, Failed, Exhausted, RetryScheduled}
  {
  }

  // The first retry waits for the configured delay, or a second; each next one
  // twice as long, up to the seventh and up to an hour.
  lemma WaitsDouble(attempt: nat, retryDelay: int)
    ensures Delay(1, retryDelay) == Least(3_600_000_000_000, if retryDelay > 0 then retryDelay else 1_000_000_000)
    ensures 1 <= attempt < 7 ==> Delay(attempt + 1, retryDelay) == Least(3_600_000_000_000, 2 * Delay(attempt, retryDelay))
    ensures attempt >= 7 ==> Delay(attempt, retryDelay) == Delay(7, retryDelay)
    ensures Delay(0, retryDelay) == Delay(1, retryDelay)
  {
    if 1 <= attempt < 7 {
      var base := if retryDelay <= 0 then SECOND else retryDelay;
      var power := Power2(Shift(attempt));
      assert Power2(Shift(attempt + 1)) == 2 * power;
      assert base * (2 * power) == 2 * (base * power);
    }
  }

  function Least(a: int, b: int): int {
    if a < b then a else b
  }

  lemma Grows(base: nat, p: nat, q: nat)
    requires 1 <= p <= q && base > 0
    ensures 0 < base * p <= base * q
  {
  }

  lemma {:induction false} PowersGrow(a: nat, b: nat)
    requires a <= b
    ensures 1 <= Power2(a) <= Power2(b)
  {
    if a > 0 {
      PowersGrow(a - 1, b - 1);
    } else if b > 0 {
      PowersGrow(0, b - 1);
    }
  }

  // ---------------------------------------------------------------- transactions

  function WithStatus(attempts: seq<Attempt>, i: nat, status: Status): seq<Attempt>
    requires i < |attempts|
  {
    attempts[i := attempts[i].(status := status, lease := None)]
  }

  function Started(number: nat, now: Time, leaseFor: Time): Attempt {
    Attempt(number, InFlight, Some(now + leaseFor), None)
  }

  // The attempts after StartAttempt, and whether it started one; a started
  // attempt is the last.
  function StartNext(attempts: seq<Attempt>, now: Time, leaseFor: Time, maxAttempts: nat): (seq<Attempt>, bool) {
    if attempts == [] then
      if 1 > maxAttempts then (attempts, false) else ([Started(1, now, leaseFor)], true)
    else
      var i := Newest(attempts);
      var latest := attempts[i];
      var n := latest.number + 1;
      match latest.status
      case Delivered => (attempts, false)
      case Failed => (attempts, false)
      case Exhausted => (attempts, false)
      case InFlight =>
        if latest.lease.Some? && latest.lease.value > now then (attempts, false)
        else if latest.number >= maxAttempts then (WithStatus(attempts, i, Exhausted), false)
        else (WithStatus(attempts, i, Superseded) + [Started(n, now, leaseFor)], true)
      case RetryScheduled =>
        var superseded := attempts[i := latest.(status := Superseded)];
        if latest.next.Some? && latest.next.value > now then (attempts, false)
        else if n > maxAttempts then (superseded, false)
        else (superseded + [Started(n, now, leaseFor)], true)
      case ReplayPending => (WithStatus(attempts, i, Superseded) + [Started(n, now, leaseFor)], true)
      case Superseded => if n > maxAttempts then (attempts, false) else (attempts + [Started(n, now, leaseFor)], true)
  }

  function AttemptStarted(s: Event, endpoint: Endpoint, now: Time, leaseFor: Time, maxAttempts: nat): (Event, bool) {
    var (attempts, started) := StartNext(Of(s, endpoint), now, leaseFor, maxAttempts);
    (s.(attempts := s.attempts[endpoint := attempts]), started)
  }

  // Completes an attempt that is still in flight; None when it is not.
  function AttemptCompleted(s: Event, endpoint: Endpoint, i: nat, result: Result): Option<Event> {
    var attempts := Of(s, endpoint);
    if i >= |attempts| || attempts[i].status != InFlight then None
    else
      var done := attempts[i].(status := result.status, lease := None, next := result.next);
      Some(s.(attempts := s.attempts[endpoint := attempts[i := done]]))
  }

  predicate Wanted(attempt: Attempt, status: Status) {
    attempt.status == status && (status == RetryScheduled ==> attempt.next.Some?)
  }

  // When an attempt is due: a retry at its next time, others as their lease ends.
  function DueAt(attempt: Attempt): Option<Time> {
    if attempt.status == RetryScheduled then attempt.next else attempt.lease
  }

  // Some attempt of the event has the status.
  ghost predicate Any(s: Event, status: Status) {
    exists endpoint, i :: 0 <= i < |Of(s, endpoint)| && Wanted(Of(s, endpoint)[i], status)
  }

  // No attempt in the status is due earlier, and one is due then.
  ghost predicate Earliest(s: Event, status: Status, at: Time) {
    && (forall endpoint, i :: 0 <= i < |Of(s, endpoint)| && Wanted(Of(s, endpoint)[i], status) ==>
          DueAt(Of(s, endpoint)[i]).None? || at <= DueAt(Of(s, endpoint)[i]).value)
    && (exists endpoint, i :: 0 <= i < |Of(s, endpoint)| && Wanted(Of(s, endpoint)[i], status)
                              && DueAt(Of(s, endpoint)[i]) == Some(at))
  }

  predicate OpenJob(s: Event) {
    exists j :: 0 <= j < |s.jobs| && !s.jobs[j].processed
  }

  datatype ReplayOutcome = Accepted | AlreadyQueued | NotFound | NotAllowed

  function DeliveryReplayed(s: Event, endpoint: Endpoint, i: nat, now: Time): (Event, ReplayOutcome) {
    var attempts := Of(s, endpoint);
    if i >= |attempts| then (s, NotFound)
    else if attempts[i].status == ReplayPending && OpenJob(s) then (s, AlreadyQueued)
    else if attempts[i].status != Exhausted then (s, NotAllowed)
    else if OpenJob(s) then (s, AlreadyQueued)
    else
      var pending := attempts[i].(status := ReplayPending, next := Some(now), lease := None);
      (Event(s.attempts[endpoint := attempts[i := pending]], s.jobs + [Job(false, now)]), Accepted)
  }

  // A job is moved on when one is found, unless it is already processed.
  function UpdateJob(s: Event, j: nat, job: Job): Event {
    if j < |s.jobs| && !s.jobs[j].processed then s.(jobs := s.jobs[j := job]) else s
  }

  ghost predicate MovedTo(before: Event, after: Event, j: nat, at: Time) {
    after == UpdateJob(before, j, Job(false, at))
  }

  // No attempt in flight has a lease.
  ghost predicate Unleased(s: Event) {
    forall endpoint, i :: 0 <= i < |Of(s, endpoint)| && Of(s, endpoint)[i].status == InFlight ==> Of(s, endpoint)[i].lease.None?
  }

  // What FinalizeEvent does to the job, by what the attempts are waiting for.
  ghost predicate Finalized(before: Event, after: Event, j: nat, now: Time) {
    if Any(before, RetryScheduled) then
      exists at :: MovedTo(before, after, j, at) && Earliest(before, RetryScheduled, at)
    else if Any(before, InFlight) then
      || (exists until :: Earliest(before, InFlight, until) && MovedTo(before, after, j, if until > now then until else now))
      || (Unleased(before) && MovedTo(before, after, j, now))
    else if j < |before.jobs| && !before.jobs[j].processed then
      after == before.(jobs := before.jobs[j := before.jobs[j].(processed := true)])
    else after == before
  }

  // ---------------------------------------------------------------- the repository

  class WebhookRepository {
    const endpoints: seq<Endpoint>
    var attempts: map<Endpoint, seq<Attempt>>
    var jobs: seq<Job>

    function Rows(): Event
      reads this
    {
      Event(attempts, jobs)
    }

    // Attempts are of the subscribed endpoints.
    predicate Valid()
      reads this
    {
      attempts.Keys == set endpoint | endpoint in endpoints
    }

    constructor (endpoints: seq<Endpoint>, now: Time)
      ensures Valid() && this.endpoints == endpoints
      ensures jobs == [Job(false, now)] && forall endpoint :: Of(Rows(), endpoint) == []
    {
      this.endpoints := endpoints;
      attempts := map endpoint | endpoint in endpoints :: [];
      jobs := [Job(false, now)];
    }

    method FindLatest(endpoint: Endpoint) returns (i: nat)
      requires Of(Rows(), endpoint) != []
      ensures i == Newest(Of(Rows(), endpoint))
    {
      var rows := attempts[endpoint];
      i := 0;
      for k := 1 to |rows|
        invariant i < k <= |rows| && i == Newest(rows[..k])
      {
        assert rows[..k + 1][..k] == rows[..k];
        if rows[k].number > rows[i].number {
          i := k;
        }
      }
      assert rows[..|rows|] == rows;
    }

    method StartAttempt(endpoint: Endpoint, now: Time, leaseFor: Time, maxAttempts: nat) returns (started: bool)
      requires Valid() && endpoint in endpoints
      modifies `attempts
      ensures Valid() && (Rows(), started) == AttemptStarted(old(Rows()), endpoint, now, leaseFor, maxAttempts)
    {
      var rows := attempts[endpoint];
      assert attempts[endpoint := rows] == attempts;
      var number, manual := 0, false;
      if rows != [] {
        var i := FindLatest(endpoint);
        var latest := rows[i];
        number := latest.number;
        match latest.status {
          case Delivered => return false;
          case Failed => return false;
          case Exhausted => return false;
          case InFlight =>
            if latest.lease.Some? && latest.lease.value > now {
              return false;
            }
            if number >= maxAttempts {
              attempts := attempts[endpoint := rows[i := latest.(status := Exhausted, lease := None)]];
              return false;
            }
            rows := rows[i := latest.(status := Superseded, lease := None)];
          case RetryScheduled =>
            if latest.next.Some? && latest.next.value > now {
              return false;
            }
            rows := rows[i := latest.(status := Superseded)];
          case ReplayPending =>
            manual := true;
            rows := rows[i := latest.(status := Superseded, lease := None)];
          case Superseded =>
        }
      }
      attempts := attempts[endpoint := rows];
      if number + 1 > maxAttempts && !manual {
        return false;
      }
      rows := rows + [Attempt(number + 1, InFlight, Some(now + leaseFor), None)];
      attempts := attempts[endpoint := rows];
      assert attempts == old(attempts)[endpoint := rows];
      assert rows == StartNext(old(attempts)[endpoint], now, leaseFor, maxAttempts).0;
      return true;
    }

    method CompleteAttempt(endpoint: Endpoint, i: nat, result: Result) returns (ok: bool)
      requires Valid() && endpoint in endpoints
      modifies `attempts
      ensures Valid()
      ensures match AttemptCompleted(old(Rows()), endpoint, i, result)
              case Some(next) => ok && Rows() == next
              case None => !ok && Rows() == old(Rows())
    {
      var rows := attempts[endpoint];
      if i >= |rows| || rows[i].status != InFlight {
        return false;
      }
      attempts := attempts[endpoint := rows[i := rows[i].(status := result.status, lease := None, next := result.next)]];
      return true;
    }

    // The earliest due time of the attempts in a status.
    method FindEarliest(status: Status) returns (found: bool, at: Option<Time>)
      requires Valid()
      ensures found <==> Any(Rows(), status)
      ensures at.Some? ==> found && Earliest(Rows(), status, at.value)
      ensures at.None? ==> forall endpoint, i :: 0 <= i < |Of(Rows(), endpoint)| && Wanted(Of(Rows(), endpoint)[i], status) ==>
                                                   DueAt(Of(Rows(), endpoint)[i]).None?
      ensures found && status == RetryScheduled ==> at.Some?
    {
      found, at := false, None;
      var due: seq<Attempt> := [];
      for e := 0 to |endpoints|
        invariant forall a :: a in due <==> exists d, i :: 0 <= d < e && 0 <= i < |attempts[endpoints[d]]| && a == attempts[endpoints[d]][i]
      {
        due := due + attempts[endpoints[e]];
      }
      forall endpoint, i | 0 <= i < |Of(Rows(), endpoint)|
        ensures Of(Rows(), endpoint)[i] in due
      {
        var d :| 0 <= d < |endpoints| && endpoints[d] == endpoint;
        assert Of(Rows(), endpoint)[i] == attempts[endpoints[d]][i];
      }
      forall a | a in due
        ensures exists endpoint, i :: 0 <= i < |Of(Rows(), endpoint)| && a == Of(Rows(), endpoint)[i]
      {
        var d, i :| 0 <= d < |endpoints| && 0 <= i < |attempts[endpoints[d]]| && a == attempts[endpoints[d]][i];
        assert Of(Rows(), endpoints[d])[i] == a;
      }
      for i := 0 to |due|
        invariant found <==> exists k :: 0 <= k < i && Wanted(due[k], status)
        invariant at.Some? ==> exists k :: 0 <= k < i && Wanted(due[k], status) && DueAt(due[k]) == at
        invariant forall k :: 0 <= k < i && Wanted(due[k], status) && DueAt(due[k]).Some? ==>
                                at.Some? && at.value <= DueAt(due[k]).value
      {
        if Wanted(due[i], status) {
          var time := DueAt(due[i]);
          if time.Some? && (at.None? || time.value < at.value) {
            at := time;
          }
          found := true;
        }
      }
      if found {
        var k :| 0 <= k < |due| && Wanted(due[k], status);
        assert due[k] in due;
      }
      if at.Some? {
        var k :| 0 <= k < |due| && Wanted(due[k], status) && DueAt(due[k]) == at;
        assert due[k] in due;
      }
      forall endpoint, i | 0 <= i < |Of(Rows(), endpoint)| && Wanted(Of(Rows(), endpoint)[i], status)
        ensures found && (DueAt(Of(Rows(), endpoint)[i]).Some? ==> at.Some? && at.value <= DueAt(Of(Rows(), endpoint)[i]).value)
      {
        assert Of(Rows(), endpoint)[i] in due;
      }
    }

    // Moves the job on to the earliest retry, or to the end of the earliest
    // lease if that is still to come, or ends it.
    method FinalizeEvent(j: nat, now: Time)
      requires Valid()
      modifies `jobs
      ensures Valid() && Finalized(old(Rows()), Rows(), j, now)
    {
      ghost var before := Rows();
      var retry, next := FindEarliest(RetryScheduled);
      if retry {
        Update(j, Job(false, next.value));
        return;
      }
      var active, until := FindEarliest(InFlight);
      if active {
        var at := if until.Some? && until.value > now then until.value else now;
        Update(j, Job(false, at));
        assert MovedTo(before, Rows(), j, at);
        return;
      }
      if j < |jobs| && !jobs[j].processed {
        jobs := jobs[j := jobs[j].(processed := true)];
      }
    }

    method Update(j: nat, job: Job)
      modifies `jobs
      ensures Rows() == UpdateJob(old(Rows()), j, job)
    {
      if j < |jobs| && !jobs[j].processed {
        jobs := jobs[j := job];
      }
    }

    method ReplayDelivery(endpoint: Endpoint, i: nat, now: Time) returns (outcome: ReplayOutcome)
      requires Valid() && endpoint in endpoints
      modifies this
      ensures Valid() && (Rows(), outcome) == DeliveryReplayed(old(Rows()), endpoint, i, now)
    {
      var rows := attempts[endpoint];
      if i >= |rows| {
        return NotFound;
      }
      var existing := exists j :: 0 <= j < |jobs| && !jobs[j].processed;
      assert existing == OpenJob(Rows());
      if rows[i].status == ReplayPending && existing {
        return AlreadyQueued;
      }
      if rows[i].status != Exhausted {
        return NotAllowed;
      }
      if existing {
        return AlreadyQueued;
      }
      attempts := attempts[endpoint := rows[i := rows[i].(status := ReplayPending, next := Some(now), lease := None)]];
      jobs := jobs + [Job(false, now)];
      return Accepted;
    }
  }
}
