// The delivery use case as the program runs it: one pass over the endpoints
// of an event. A pass that nothing interrupts is an execution of the system
// of module WebhookFencing.
module WebhookDelivery {
  import opened Prelude
  import opened Webhooks
  import opened WebhookFencing

  ghost predicate Leads(config: Config, s: System, t: System) {
    exists states, actions :: Execution(config, states, actions) && states[0] == s && states[|states| - 1] == t
  }

  lemma Here(config: Config, s: System)
    ensures Leads(config, s, s)
  {
    assert Execution(config, [s], []);
    assert [s][0] == s && [s][|[s]| - 1] == s;
  }

  lemma Extend(config: Config, s: System, m: System, action: Action, t: System)
    requires Leads(config, s, m) && Next(config, m, action, t)
    ensures Leads(config, s, t)
  {
    hide Next;
    var states, actions :| Execution(config, states, actions) && states[0] == s && states[|states| - 1] == m;
    var longer, more := states + [t], actions + [action];
    forall i | 0 <= i < |more|
      ensures Next(config, longer[i], more[i], longer[i + 1])
    {
      if i < |actions| {
        assert longer[i] == states[i] && longer[i + 1] == states[i + 1];
      }
    }
    assert Execution(config, longer, more) && longer[0] == s && longer[|longer| - 1] == t;
  }

  // What is recorded of an answer to an attempt: delivered on a 2xx, failed on
  // anything that will not pass, and otherwise tried again until the limit.
  predicate Records(config: Config, attempt: Attempt, response: Response, at: Time) {
    && attempt.lease == None
    && match response
       case LocalFailure => attempt.status == Failed && attempt.next == None
       case Answered(status, failed) =>
         var passes := failed || status in {408, 409, 425, 429} || status >= 500;
         && (attempt.status == Delivered <==> !failed && 200 <= status <= 299)
         && (attempt.status == Failed <==> !passes && (status < 200 || status > 299))
         && (attempt.status == Exhausted <==> passes && attempt.number >= config.maxAttempts)
         && (attempt.status == RetryScheduled <==> passes && attempt.number < config.maxAttempts)
         && attempt.next == if attempt.status == RetryScheduled then Some(at + Delay(attempt.number, config.retryDelay)) else None
  }

  lemma ResultRecords(config: Config, response: Response, number: nat, at: Time)
    ensures var result := ResultOf(config, response, number, at);
            Records(config, Attempt(number, result.status, None, result.next), response, at)
  {
    match response
    case LocalFailure =>
    case Answered(status, failed) =>
      OutcomeIsRight(status, failed, number, config.maxAttempts, at, config.retryDelay);
  }

  class WebhookDeliveryUsecase {
    const repository: WebhookRepository
    const config: Config

    constructor (repository: WebhookRepository, config: Config)
      requires repository.endpoints == config.endpoints
      ensures this.repository == repository && this.config == config
    {
      this.repository, this.config := repository, config;
    }

    // This use case's rows, with `others` in progress and run `w` at `run`.
    ghost function At(others: System, w: nat, run: Worker): System
      reads repository
    {
      others.(event := repository.Rows(), workers := others.workers[w := run])
    }

    // Starts an attempt for one endpoint, if it may, and records its answer;
    // not ok when the attempt was taken over meanwhile, which nothing does to a
    // pass that runs alone.
    method Deliver(job: nat, i: nat, response: Response, now: Time, answeredAt: Time, ghost others: System, ghost w: nat)
      returns (ok: bool)
      requires repository.Valid() && repository.endpoints == config.endpoints && i < |config.endpoints|
      requires w !in others.workers && Leads(config, others, At(others, w, Visiting(job, i)))
      modifies repository
      ensures repository.Valid()
      ensures ok && Leads(config, others, At(others, w, Visiting(job, i + 1)))
      ensures repository.jobs == old(repository.jobs)
      ensures repository.attempts
           == old(repository.attempts)[config.endpoints[i] :=
                AfterVisit(config, Of(old(repository.Rows()), config.endpoints[i]), response, now, answeredAt)]
    {
      hide Leads, StartNext, Classify, Newest, ResultOf;
      var endpoint := config.endpoints[i];
      ghost var before := At(others, w, Visiting(job, i));
      var started := repository.StartAttempt(endpoint, now, config.leaseFor, config.maxAttempts);
      if !started {
        assert before.workers[w := Visiting(job, i + 1)] == others.workers[w := Visiting(job, i + 1)];
        Extend(config, others, before, Visit(w, now), At(others, w, Visiting(job, i + 1)));
        return true;
      }
      StartedIsLast(Of(before.event, endpoint), now, config.leaseFor, config.maxAttempts);
      var attempt := |repository.attempts[endpoint]| - 1;
      ghost var delivering := At(others, w, Delivering(job, i, attempt));
      assert before.workers[w := Delivering(job, i, attempt)] == others.workers[w := Delivering(job, i, attempt)];
      Extend(config, others, before, Visit(w, now), delivering);
      var result := ResultOf(config, response, repository.attempts[endpoint][attempt].number, answeredAt);
      ok := repository.CompleteAttempt(endpoint, attempt, result);
      assert delivering.workers[w := Visiting(job, i + 1)] == others.workers[w := Visiting(job, i + 1)];
      Extend(config, others, delivering, Answer(w, response, answeredAt), At(others, w, Visiting(job, i + 1)));
    }

    // One pass, over whatever the endpoints answer. The clock is read once for
    // all the leases, again for each answer, and again at the end. Every
    // endpoint is visited, and the message moved on by what they then wait for.
    method RunOnce(job: nat, responses: seq<Response>, now: Time, answeredAt: seq<Time>, finishedAt: Time,
                   ghost others: System, ghost w: nat)
      returns (ok: bool)
      requires repository.Valid() && repository.endpoints == config.endpoints && |responses| == |answeredAt| == |config.endpoints|
      requires others.event == repository.Rows() && w !in others.workers
      requires job < |repository.jobs| && !repository.jobs[job].processed
      modifies repository
      ensures repository.Valid()
      ensures ok && Leads(config, others, others.(event := repository.Rows()))
      ensures Passed(old(repository.Rows()), repository.Rows(), responses, now, answeredAt, |config.endpoints|)
      ensures Finalized(Event(repository.attempts, old(repository.jobs)), repository.Rows(), job, finishedAt)
    {
      hide Leads, Finalized, AfterVisit, Passed;
      ghost var before := repository.Rows();
      NonePassed(before, responses, now, answeredAt);
      Here(config, others);
      Extend(config, others, others, Begin(w, job), At(others, w, Visiting(job, 0)));
      for i := 0 to |config.endpoints|
        invariant repository.Valid() && Leads(config, others, At(others, w, Visiting(job, i)))
        invariant repository.jobs == old(repository.jobs)
        invariant Passed(before, repository.Rows(), responses, now, answeredAt, i)
      {
        ghost var rows := repository.Rows();
        ok := Deliver(job, i, responses[i], now, answeredAt[i], others, w);
        if !ok {
          return;
        }
        OnePassed(before, rows, repository.Rows(), responses, now, answeredAt, i);
      }
      ghost var visited := At(others, w, Visiting(job, |config.endpoints|));
      repository.FinalizeEvent(job, finishedAt);
      SamePassed(before, visited.event, repository.Rows(), responses, now, answeredAt, |config.endpoints|);
      assert visited.workers - {w} == others.workers;
      Extend(config, others, visited, Finish(w, finishedAt), others.(event := repository.Rows()));
      return true;
    }

    // No other subscription is of this one's endpoint.
    predicate Alone(k: nat)
      requires k < |config.endpoints|
    {
      forall j :: 0 <= j < |config.endpoints| && config.endpoints[j] == config.endpoints[k] ==> j == k
    }

    // The first n endpoints were visited, each once, and no other.
    ghost predicate Passed(before: Event, after: Event, responses: seq<Response>, now: Time, answeredAt: seq<Time>, n: nat)
      requires |responses| == |answeredAt| == |config.endpoints|
    {
      forall k :: 0 <= k < |config.endpoints| && Alone(k) ==>
        Of(after, config.endpoints[k])
        == if k < n then AfterVisit(config, Of(before, config.endpoints[k]), responses[k], now, answeredAt[k])
           else Of(before, config.endpoints[k])
    }

    lemma NonePassed(before: Event, responses: seq<Response>, now: Time, answeredAt: seq<Time>)
      requires |responses| == |answeredAt| == |config.endpoints|
      ensures Passed(before, before, responses, now, answeredAt, 0)
    {
    }

    lemma OnePassed(before: Event, rows: Event, after: Event, responses: seq<Response>, now: Time, answeredAt: seq<Time>, n: nat)
      requires |responses| == |answeredAt| == |config.endpoints| && n < |config.endpoints|
      requires Passed(before, rows, responses, now, answeredAt, n)
      requires after.attempts
            == rows.attempts[config.endpoints[n] := AfterVisit(config, Of(rows, config.endpoints[n]), responses[n], now, answeredAt[n])]
      ensures Passed(before, after, responses, now, answeredAt, n + 1)
    {
      hide AfterVisit;
      forall k | 0 <= k < |config.endpoints| && Alone(k) && k != n
        ensures config.endpoints[k] != config.endpoints[n] && Of(after, config.endpoints[k]) == Of(rows, config.endpoints[k])
      {
      }
    }

    lemma SamePassed(before: Event, rows: Event, after: Event, responses: seq<Response>, now: Time, answeredAt: seq<Time>, n: nat)
      requires |responses| == |answeredAt| == |config.endpoints|
      requires Passed(before, rows, responses, now, answeredAt, n) && after.attempts == rows.attempts
      ensures Passed(before, after, responses, now, answeredAt, n)
    {
      hide AfterVisit;
    }
  }

  lemma StartedIsLast(attempts: seq<Attempt>, now: Time, leaseFor: Time, maxAttempts: nat)
    requires StartNext(attempts, now, leaseFor, maxAttempts).1
    ensures var next := StartNext(attempts, now, leaseFor, maxAttempts).0;
            next != [] && Last(next).status == InFlight
  {
  }

  // What a visit makes of the attempts of an endpoint.
  function AfterVisit(config: Config, attempts: seq<Attempt>, response: Response, now: Time, answeredAt: Time): seq<Attempt> {
    var (next, started) := StartNext(attempts, now, config.leaseFor, config.maxAttempts);
    if !started || next == [] then next
    else
      var last := Last(next);
      var result := ResultOf(config, response, last.number, answeredAt);
      next[|next| - 1 := last.(status := result.status, lease := None, next := result.next)]
  }

  // A visit sends one attempt exactly when one is due, under the next number,
  // and records its answer; earlier attempts stay superseded. Otherwise it
  // sends nothing.
  lemma VisitSendsWhenDue(config: Config, attempts: seq<Attempt>, response: Response, now: Time, answeredAt: Time, replays: nat)
    requires Fenced(attempts, replays, config.maxAttempts) && config.maxAttempts > 0
    ensures var after := AfterVisit(config, attempts, response, now, answeredAt);
            if Startable(attempts, now, config.maxAttempts) then
              && |after| == |attempts| + 1 && Last(after).number == |attempts| + 1
              && Records(config, Last(after), response, answeredAt)
              && forall i :: 0 <= i < |attempts| ==> after[i].status == Superseded && after[i].number == attempts[i].number
            else |after| == |attempts|
  {
    hide StartNext, ResultOf, Fenced, Startable, Records;
    StartsWhenDue(attempts, now, config.leaseFor, replays, config.maxAttempts);
    ResultRecords(config, response, |attempts| + 1, answeredAt);
  }
}
