// Any number of delivery workers, late completions, crashes and manual
// replays on the rows of one event.
module WebhookFencing {
  import opened Prelude
  import opened Webhooks

  // The subscribed endpoints are fixed; clocks may say anything.
  datatype Config = Config(endpoints: seq<Endpoint>, maxAttempts: nat, leaseFor: Time, retryDelay: int)

  // A run of the delivery use case over the outbox message `job`: it has
  // visited that many endpoints, and may be waiting for the next one's answer.
  datatype Worker = Visiting(job: nat, visited: nat) | Delivering(job: nat, visited: nat, attempt: nat)

  // `replays` counts the accepted manual replays of each endpoint.
  datatype System = System(event: Event, replays: map<Endpoint, nat>, workers: map<nat, Worker>)

  datatype Response = LocalFailure | Answered(status: int, failed: bool)

  datatype Action =
    | Begin(worker: nat, job: nat)
    | Visit(worker: nat, now: Time)
    | Answer(worker: nat, response: Response, now: Time)
    | Finish(worker: nat, now: Time)
    | Crash(worker: nat)
    | Replay(endpoint: Endpoint, attempt: nat, now: Time)

  function Initial(now: Time): System {
    System(Event(map[], [Job(false, now)]), map[], map[])
  }

  function Replays(s: System, endpoint: Endpoint): nat {
    if endpoint in s.replays then s.replays[endpoint] else 0
  }

  // What a worker makes of an answer to the attempt with this number.
  function ResultOf(config: Config, response: Response, number: nat, now: Time): Result {
    match response
    case LocalFailure => Result(Failed, None)
    case Answered(status, failed) => Classify(status, failed, number, config.maxAttempts, now, config.retryDelay)
  }

  ghost predicate Next(config: Config, s: System, action: Action, t: System) {
    match action
    case Begin(w, job) =>
      && w !in s.workers && job < |s.event.jobs| && !s.event.jobs[job].processed
      && t == s.(workers := s.workers[w := Visiting(job, 0)])
    case Visit(w, now) =>
      && w in s.workers && s.workers[w].Visiting? && s.workers[w].visited < |config.endpoints|
      && var run := s.workers[w];
         var endpoint := config.endpoints[run.visited];
         var (event, started) := AttemptStarted(s.event, endpoint, now, config.leaseFor, config.maxAttempts);
         t == s.(event := event,
                 workers := s.workers[w := if started then Delivering(run.job, run.visited, |Of(event, endpoint)| - 1)
                                           else Visiting(run.job, run.visited + 1)])
    case Answer(w, response, now) =>
      && w in s.workers && s.workers[w].Delivering? && s.workers[w].visited < |config.endpoints|
      && var run := s.workers[w];
         var endpoint := config.endpoints[run.visited];
         run.attempt < |Of(s.event, endpoint)|
         && (match AttemptCompleted(s.event, endpoint, run.attempt,
                                   ResultOf(config, response, Of(s.event, endpoint)[run.attempt].number, now))
            case Some(event) => t == s.(event := event, workers := s.workers[w := Visiting(run.job, run.visited + 1)])
            case None => t == s.(workers := s.workers - {w}))
    case Finish(w, now) =>
      && w in s.workers && s.workers[w].Visiting? && s.workers[w].visited == |config.endpoints|
      && Finalized(s.event, t.event, s.workers[w].job, now)
      && t.replays == s.replays && t.workers == s.workers - {w}
    case Crash(w) => w in s.workers && t == s.(workers := s.workers - {w})
    case Replay(endpoint, attempt, now) =>
      var (event, outcome) := DeliveryReplayed(s.event, endpoint, attempt, now);
      t == s.(event := event,
              replays := if outcome == Accepted then s.replays[endpoint := Replays(s, endpoint) + 1] else s.replays)
  }

  // ---------------------------------------------------------------- invariant

  function Last(attempts: seq<Attempt>): Attempt
    requires attempts != []
  {
    attempts[|attempts| - 1]
  }

  // The attempts of one endpoint: numbered 1..n, all but the last superseded,
  // a retry below the limit, and n within the limit and the replays.
  predicate Fenced(attempts: seq<Attempt>, replays: nat, maxAttempts: nat) {
    && (forall i :: 0 <= i < |attempts| ==> attempts[i].number == i + 1)
    && (forall i :: 0 <= i < |attempts| - 1 ==> attempts[i].status == Superseded)
    && (attempts != [] ==>
          && Last(attempts).status != Superseded
          && (Last(attempts).status == RetryScheduled ==> |attempts| < maxAttempts && Last(attempts).next.Some?)
          && (Last(attempts).status in {Exhausted, ReplayPending} ==> |attempts| >= maxAttempts)
          && |attempts| + (if Last(attempts).status == ReplayPending then 1 else 0) <= maxAttempts + replays)
  }

  predicate Idle(attempts: seq<Attempt>) {
    attempts != [] && Terminal(Last(attempts).status)
  }

  ghost predicate JobsSound(config: Config, event: Event) {
    && (forall i, j :: 0 <= i < |event.jobs| && 0 <= j < |event.jobs| && !event.jobs[i].processed && !event.jobs[j].processed ==> i == j)
    && (!OpenJob(event) ==> forall endpoint :: endpoint in config.endpoints ==> Idle(Of(event, endpoint)))
  }

  // What a worker knows of the endpoints it has visited: there is an attempt,
  // and while its message is open none awaits a replay.
  predicate Visited(event: Event, job: nat, endpoint: Endpoint) {
    && Of(event, endpoint) != []
    && (job < |event.jobs| && !event.jobs[job].processed ==> Last(Of(event, endpoint)).status != ReplayPending)
  }

  ghost predicate WorkerSound(config: Config, event: Event, run: Worker) {
    && run.job < |event.jobs| && run.visited <= |config.endpoints|
    && (forall k :: 0 <= k < run.visited ==> Visited(event, run.job, config.endpoints[k]))
    && (run.Delivering? ==>
          && run.visited < |config.endpoints| && Visited(event, run.job, config.endpoints[run.visited])
          && run.attempt < |Of(event, config.endpoints[run.visited])|)
  }

  ghost predicate Sound(config: Config, s: System) {
    && (forall endpoint :: Fenced(Of(s.event, endpoint), Replays(s, endpoint), config.maxAttempts))
    && (forall endpoint :: Of(s.event, endpoint) != [] ==> endpoint in config.endpoints)
    && JobsSound(config, s.event)
    && (forall w :: w in s.workers ==> WorkerSound(config, s.event, s.workers[w]))
  }

  lemma InitiallySound(config: Config, now: Time)
    requires config.maxAttempts > 0
    ensures Sound(config, Initial(now))
  {
    assert !Initial(now).event.jobs[0].processed;
  }

  // ---------------------------------------------------------------- one endpoint

  lemma NewestIsLast(attempts: seq<Attempt>)
    requires attempts != [] && forall i :: 0 <= i < |attempts| ==> attempts[i].number == i + 1
    ensures Newest(attempts) == |attempts| - 1
  {
    assert attempts[|attempts| - 1].number <= attempts[Newest(attempts)].number;
  }

  // How the attempts of an endpoint grow: superseded ones stay as they are,
  // and there are never fewer.
  predicate Grows(before: seq<Attempt>, after: seq<Attempt>) {
    && |before| <= |after|
    && (forall i :: 0 <= i < |before| && before[i].status == Superseded ==> after[i] == before[i])
  }

  lemma StartKeepsFence(attempts: seq<Attempt>, now: Time, leaseFor: Time, replays: nat, maxAttempts: nat)
    requires Fenced(attempts, replays, maxAttempts) && maxAttempts > 0
    ensures var (next, started) := StartNext(attempts, now, leaseFor, maxAttempts);
            && Fenced(next, replays, maxAttempts) && Grows(attempts, next) && next != []
            && Last(next).status != ReplayPending
            && (started ==> Last(next).status == InFlight && (attempts != [] ==> |next| == |attempts| + 1))
            && (Idle(attempts) ==> next == attempts && !started)
  {
    if attempts != [] {
      NewestIsLast(attempts);
    }
  }

  predicate LeaseOver(attempt: Attempt, now: Time) {
    attempt.status == InFlight && (attempt.lease.None? || attempt.lease.value <= now)
  }

  // The last attempt leaves room for the next one at this time: its lease is
  // over with attempts left, its retry is due, or a replay was asked for.
  predicate Startable(attempts: seq<Attempt>, now: Time, maxAttempts: nat) {
    attempts == []
    || var last := Last(attempts);
       || (LeaseOver(last, now) && |attempts| < maxAttempts)
       || (last.status == RetryScheduled && (last.next.None? || last.next.value <= now))
       || last.status == ReplayPending
  }

  // An attempt starts exactly then, under the next number and a lease of its
  // own, and supersedes the one before it. Otherwise nothing changes, but that
  // an attempt whose lease ended at the limit is exhausted.
  lemma StartsWhenDue(attempts: seq<Attempt>, now: Time, leaseFor: Time, replays: nat, maxAttempts: nat)
    requires Fenced(attempts, replays, maxAttempts) && maxAttempts > 0
    ensures var (next, started) := StartNext(attempts, now, leaseFor, maxAttempts);
            && (started <==> Startable(attempts, now, maxAttempts))
            && (started ==>
                  && |next| == |attempts| + 1
                  && Last(next) == Attempt(|attempts| + 1, InFlight, Some(now + leaseFor), None)
                  && (forall i :: 0 <= i < |attempts| ==> next[i].status == Superseded && next[i].number == attempts[i].number)
                  && (forall i :: 0 <= i < |attempts| - 1 ==> next[i] == attempts[i]))
            && (!started && !LeaseOver(Last(attempts), now) ==> next == attempts)
            && (!started && LeaseOver(Last(attempts), now) ==>
                  && |attempts| >= maxAttempts
                  && next == attempts[|attempts| - 1 := Last(attempts).(status := Exhausted, lease := None)])
  {
    if attempts != [] {
      NewestIsLast(attempts);
    }
  }

  lemma CompleteKeepsFence(attempts: seq<Attempt>, i: nat, response: Response, config: Config, now: Time, replays: nat)
    requires Fenced(attempts, replays, config.maxAttempts)
    requires i < |attempts| && attempts[i].status == InFlight
    ensures i == |attempts| - 1
    ensures var result := ResultOf(config, response, attempts[i].number, now);
            var next := attempts[i := attempts[i].(status := result.status, lease := None, next := result.next)];
            Fenced(next, replays, config.maxAttempts) && Grows(attempts, next) && Last(next).status != ReplayPending
  {
    match response
    case LocalFailure =>
    case Answered(status, failed) => RetriesAreBounded(status, failed, attempts[i].number, config.maxAttempts, now, config.retryDelay);
  }

  lemma ReplayKeepsFence(attempts: seq<Attempt>, i: nat, now: Time, replays: nat, maxAttempts: nat)
    requires Fenced(attempts, replays, maxAttempts) && i < |attempts| && attempts[i].status == Exhausted
    ensures i == |attempts| - 1
    ensures var next := attempts[i := attempts[i].(status := ReplayPending, next := Some(now), lease := None)];
            Fenced(next, replays + 1, maxAttempts) && Grows(attempts, next)
  {
  }

  // A replay is accepted exactly for the last, exhausted attempt of an endpoint
  // while the event has no open message. It opens one, and the next visit
  // starts an attempt whatever the limit.
  lemma ReplayOutcome(s: Event, endpoint: Endpoint, i: nat, now: Time, at: Time, leaseFor: Time, replays: nat, maxAttempts: nat)
    requires Fenced(Of(s, endpoint), replays, maxAttempts) && maxAttempts > 0
    ensures var (next, outcome) := DeliveryReplayed(s, endpoint, i, now);
            var attempts := Of(s, endpoint);
            && (outcome == Accepted <==> i < |attempts| && attempts[i].status == Exhausted && !OpenJob(s))
            && (outcome != Accepted ==> next == s)
            && (outcome == NotFound <==> i >= |attempts|)
            && (outcome == AlreadyQueued <==> i < |attempts| && attempts[i].status in {Exhausted, ReplayPending} && OpenJob(s))
            && (outcome == Accepted ==>
                  && i == |attempts| - 1 && next.jobs == s.jobs + [Job(false, now)]
                  && (forall other :: other != endpoint ==> Of(next, other) == Of(s, other))
                  && var (visited, started) := StartNext(Of(next, endpoint), at, leaseFor, maxAttempts);
                     started && Last(visited) == Attempt(|attempts| + 1, InFlight, Some(at + leaseFor), None))
  {
    hide StartNext;
    var next := DeliveryReplayed(s, endpoint, i, now).0;
    if DeliveryReplayed(s, endpoint, i, now).1 == Accepted {
      ReplayKeepsFence(Of(s, endpoint), i, now, replays, maxAttempts);
      StartsWhenDue(Of(next, endpoint), at, leaseFor, replays + 1, maxAttempts);
    }
  }

  // ---------------------------------------------------------------- steps

  // A step that writes the attempts of one endpoint, in flight or visited by a
  // worker, and no job.
  lemma EndpointStep(config: Config, s: System, endpoint: Endpoint, attempts: seq<Attempt>, event: Event)
    requires Sound(config, s) && endpoint in config.endpoints
    requires event == s.event.(attempts := s.event.attempts[endpoint := attempts])
    requires Fenced(attempts, Replays(s, endpoint), config.maxAttempts) && attempts != []
    requires Grows(Of(s.event, endpoint), attempts) && Last(attempts).status != ReplayPending
    requires Idle(Of(s.event, endpoint)) ==> attempts == Of(s.event, endpoint)
    ensures Sound(config, s.(event := event))
    ensures forall other :: Grows(Of(s.event, other), Of(event, other))
  {
    assert Of(event, endpoint) == attempts && forall other :: other != endpoint ==> Of(event, other) == Of(s.event, other);
    assert OpenJob(event) == OpenJob(s.event);
    assert !OpenJob(s.event) ==> Idle(Of(s.event, endpoint));
    forall w | w in s.workers
      ensures WorkerSound(config, event, s.workers[w])
    {
      assert WorkerSound(config, s.event, s.workers[w]);
    }
  }

  lemma VisitKept(config: Config, s: System, w: nat, now: Time, t: System)
    requires config.maxAttempts > 0 && Sound(config, s) && Next(config, s, Visit(w, now), t)
    ensures Sound(config, t) && forall endpoint :: Grows(Of(s.event, endpoint), Of(t.event, endpoint))
  {
    hide Fenced, StartNext, Grows, JobsSound, Idle;
    var run := s.workers[w];
    var endpoint := config.endpoints[run.visited];
    var attempts := StartNext(Of(s.event, endpoint), now, config.leaseFor, config.maxAttempts).0;
    FencedAt(config, s, endpoint);
    StartKeepsFence(Of(s.event, endpoint), now, config.leaseFor, Replays(s, endpoint), config.maxAttempts);
    EndpointStep(config, s, endpoint, attempts, t.event);
    VisitedWorker(config, s, w, attempts, t);
  }

  lemma VisitedWorker(config: Config, s: System, w: nat, attempts: seq<Attempt>, t: System)
    requires Sound(config, s.(event := t.event)) && w in s.workers && s.workers[w].Visiting?
    requires s.workers[w].visited < |config.endpoints|
    requires Of(t.event, config.endpoints[s.workers[w].visited]) == attempts != [] && Last(attempts).status != ReplayPending
    requires var run := s.workers[w];
             w in t.workers && t == s.(event := t.event, workers := s.workers[w := t.workers[w]])
             && (t.workers[w] == Delivering(run.job, run.visited, |attempts| - 1) || t.workers[w] == Visiting(run.job, run.visited + 1))
    ensures Sound(config, t)
  {
    hide Fenced, JobsSound;
    assert WorkerSound(config, t.event, s.workers[w]);
  }

  lemma AnswerKept(config: Config, s: System, w: nat, response: Response, now: Time, t: System)
    requires Sound(config, s) && Next(config, s, Answer(w, response, now), t)
    ensures Sound(config, t) && forall endpoint :: Grows(Of(s.event, endpoint), Of(t.event, endpoint))
  {
    hide Fenced, Grows, JobsSound, WorkerSound, ResultOf;
    var run := s.workers[w];
    var endpoint := config.endpoints[run.visited];
    var attempts := Of(s.event, endpoint);
    FencedAt(config, s, endpoint);
    if attempts[run.attempt].status == InFlight {
      CompleteKeepsFence(attempts, run.attempt, response, config, now, Replays(s, endpoint));
      EndpointStep(config, s, endpoint, Of(t.event, endpoint), t.event);
    } else {
      StillGrows(s, t);
    }
    AnsweredWorker(config, s, w, t);
  }

  lemma AnsweredWorker(config: Config, s: System, w: nat, t: System)
    requires Sound(config, s.(event := t.event)) && w in s.workers && s.workers[w].Delivering?
    requires t == s.(event := t.event, workers := s.workers[w := Visiting(s.workers[w].job, s.workers[w].visited + 1)])
             || t == s.(event := t.event, workers := s.workers - {w})
    ensures Sound(config, t)
  {
    hide Fenced, JobsSound;
    assert WorkerSound(config, t.event, s.workers[w]);
  }

  lemma FencedAt(config: Config, s: System, endpoint: Endpoint)
    requires Sound(config, s)
    ensures Fenced(Of(s.event, endpoint), Replays(s, endpoint), config.maxAttempts)
  {
  }

  lemma StillGrows(s: System, t: System)
    requires s.event.attempts == t.event.attempts
    ensures forall endpoint :: Grows(Of(s.event, endpoint), Of(t.event, endpoint))
  {
  }

  // When a worker that visited every endpoint finds neither a retry nor an
  // attempt in flight, every endpoint has come to an end.
  lemma NothingLeft(config: Config, s: System, w: nat)
    requires Sound(config, s) && w in s.workers && s.workers[w].visited == |config.endpoints|
    requires var job := s.workers[w].job; job < |s.event.jobs| && !s.event.jobs[job].processed
    requires !Any(s.event, RetryScheduled) && !Any(s.event, InFlight)
    ensures forall endpoint :: endpoint in config.endpoints ==> Idle(Of(s.event, endpoint))
  {
    hide JobsSound;
    assert WorkerSound(config, s.event, s.workers[w]);
    forall endpoint | endpoint in config.endpoints
      ensures Idle(Of(s.event, endpoint))
    {
      var k :| 0 <= k < |config.endpoints| && config.endpoints[k] == endpoint;
      assert Visited(s.event, s.workers[w].job, config.endpoints[k]);
      var attempts := Of(s.event, endpoint);
      assert Fenced(attempts, Replays(s, endpoint), config.maxAttempts);
      assert !Wanted(attempts[|attempts| - 1], InFlight) && !Wanted(attempts[|attempts| - 1], RetryScheduled);
    }
  }

  lemma FinishKept(config: Config, s: System, w: nat, now: Time, t: System)
    requires Sound(config, s) && Next(config, s, Finish(w, now), t)
    ensures Sound(config, t) && forall endpoint :: Grows(Of(s.event, endpoint), Of(t.event, endpoint))
    ensures s.event.attempts == t.event.attempts && |s.event.jobs| == |t.event.jobs|
    ensures forall j :: 0 <= j < |s.event.jobs| && s.event.jobs[j].processed ==> t.event.jobs[j].processed
  {
    hide Fenced, Grows, Any, Earliest;
    var job := s.workers[w].job;
    assert WorkerSound(config, s.event, s.workers[w]);
    if !s.event.jobs[job].processed && !Any(s.event, RetryScheduled) && !Any(s.event, InFlight) {
      NothingLeft(config, s, w);
    } else if !s.event.jobs[job].processed {
      assert !t.event.jobs[job].processed;
      assert OpenJob(t.event);
    } else {
      assert t.event == s.event;
    }
    StillGrows(s, t);
    assert forall endpoint :: Of(t.event, endpoint) == Of(s.event, endpoint);
    forall v | v in t.workers
      ensures WorkerSound(config, t.event, t.workers[v])
    {
      assert WorkerSound(config, s.event, s.workers[v]);
    }
  }

  lemma ReplayKept(config: Config, s: System, endpoint: Endpoint, i: nat, now: Time, t: System)
    requires Sound(config, s) && Next(config, s, Replay(endpoint, i, now), t)
    ensures Sound(config, t) && forall other :: Grows(Of(s.event, other), Of(t.event, other))
  {
    hide Fenced, Grows, Terminal;
    var attempts := Of(s.event, endpoint);
    FencedAt(config, s, endpoint);
    StillGrows(s, s);
    if DeliveryReplayed(s.event, endpoint, i, now).1 == Accepted {
      ReplayKeepsFence(attempts, i, now, Replays(s, endpoint), config.maxAttempts);
      assert forall other :: other != endpoint ==> Of(t.event, other) == Of(s.event, other) && Replays(t, other) == Replays(s, other);
      ReplayJobs(config, s, t);
      ReplayWorkers(config, s, endpoint, t);
    } else {
      StillGrows(s, t);
    }
  }

  // The replay's message is the only open one.
  lemma ReplayJobs(config: Config, s: System, t: System)
    requires !OpenJob(s.event) && exists at :: t.event.jobs == s.event.jobs + [Job(false, at)]
    ensures JobsSound(config, t.event)
  {
    assert !t.event.jobs[|s.event.jobs|].processed;
    assert forall j :: 0 <= j < |s.event.jobs| ==> s.event.jobs[j].processed && t.event.jobs[j].processed;
    assert OpenJob(t.event);
  }

  // Workers are on messages already processed: what they know is not of it.
  lemma ReplayWorkers(config: Config, s: System, endpoint: Endpoint, t: System)
    requires Sound(config, s) && !OpenJob(s.event) && exists at :: t.event.jobs == s.event.jobs + [Job(false, at)]
    requires t.workers == s.workers
    requires forall other :: |Of(t.event, other)| == |Of(s.event, other)|
    ensures forall w :: w in t.workers ==> WorkerSound(config, t.event, t.workers[w])
  {
    hide Fenced;
    assert forall j :: 0 <= j < |s.event.jobs| ==> s.event.jobs[j].processed && t.event.jobs[j].processed;
    forall w | w in t.workers
      ensures WorkerSound(config, t.event, t.workers[w])
    {
      assert WorkerSound(config, s.event, s.workers[w]);
    }
  }

  lemma BeginKept(config: Config, s: System, action: Action, t: System)
    requires Sound(config, s) && Next(config, s, action, t) && (action.Begin? || action.Crash?)
    ensures Sound(config, t) && forall endpoint :: Grows(Of(s.event, endpoint), Of(t.event, endpoint))
  {
    hide Fenced, JobsSound;
    StillGrows(s, t);
  }

  lemma StepKept(config: Config, s: System, action: Action, t: System)
    requires config.maxAttempts > 0 && Sound(config, s) && Next(config, s, action, t)
    ensures Sound(config, t) && forall endpoint :: Grows(Of(s.event, endpoint), Of(t.event, endpoint))
  {
    hide Sound, Next, Grows;
    match action
    case Begin(_, _) => BeginKept(config, s, action, t);
    case Visit(w, now) => VisitKept(config, s, w, now, t);
    case Answer(w, response, now) => AnswerKept(config, s, w, response, now, t);
    case Finish(w, now) => FinishKept(config, s, w, now, t);
    case Crash(_) => BeginKept(config, s, action, t);
    case Replay(endpoint, attempt, now) => ReplayKept(config, s, endpoint, attempt, now, t);
  }

  // ---------------------------------------------------------------- executions

  // `actions` takes the system through `states`.
  ghost predicate Execution(config: Config, states: seq<System>, actions: seq<Action>) {
    && |states| == |actions| + 1
    && forall i :: 0 <= i < |actions| ==> Next(config, states[i], actions[i], states[i + 1])
  }

  ghost predicate Starts(states: seq<System>) {
    states != [] && exists now :: states[0] == Initial(now)
  }

  lemma {:induction false} AllSound(config: Config, states: seq<System>, actions: seq<Action>, n: nat)
    requires config.maxAttempts > 0 && Execution(config, states, actions) && Starts(states) && n < |states|
    ensures Sound(config, states[n])
  {
    hide Sound, Next;
    if n == 0 {
      var now :| states[0] == Initial(now);
      InitiallySound(config, now);
    } else {
      AllSound(config, states, actions, n - 1);
      StepKept(config, states[n - 1], actions[n - 1], states[n]);
    }
  }

  // Fencing: under any interleaving of workers, crashes, late completions and
  // replays the attempts of an endpoint are numbered 1..n, all but the last
  // are superseded, a scheduled retry is below the limit, and n is at most the
  // limit and the accepted replays (less one that still waits to start).
  lemma AttemptsAreFenced(config: Config, states: seq<System>, actions: seq<Action>, n: nat, endpoint: Endpoint)
    requires config.maxAttempts > 0 && Execution(config, states, actions) && Starts(states) && n < |states|
    ensures var attempts := Of(states[n].event, endpoint);
            && (forall i :: 0 <= i < |attempts| ==> attempts[i].number == i + 1)
            && (forall i :: 0 <= i < |attempts| ==> (attempts[i].status == Superseded <==> i < |attempts| - 1))
            && (forall i :: 0 <= i < |attempts| && attempts[i].status == RetryScheduled ==> attempts[i].number < config.maxAttempts)
            && |attempts| <= config.maxAttempts + Replays(states[n], endpoint)
            && (attempts != [] && Last(attempts).status == ReplayPending ==>
                  |attempts| < config.maxAttempts + Replays(states[n], endpoint))
  {
    hide Next, JobsSound, WorkerSound;
    AllSound(config, states, actions, n);
    FencedAt(config, states[n], endpoint);
  }

  // A superseded attempt is never written again, whoever answers for it and
  // however late; such an answer is turned down.
  lemma {:induction false} SupersededForever(config: Config, states: seq<System>, actions: seq<Action>, m: nat, n: nat,
                                             endpoint: Endpoint, i: nat, result: Result)
    requires config.maxAttempts > 0 && Execution(config, states, actions) && Starts(states) && m <= n < |states|
    requires i < |Of(states[m].event, endpoint)| && Of(states[m].event, endpoint)[i].status == Superseded
    ensures i < |Of(states[n].event, endpoint)| && Of(states[n].event, endpoint)[i] == Of(states[m].event, endpoint)[i]
    ensures AttemptCompleted(states[n].event, endpoint, i, result) == None
    decreases n - m
  {
    hide Sound, Next;
    if m < n {
      SupersededForever(config, states, actions, m, n - 1, endpoint, i, result);
      AllSound(config, states, actions, n - 1);
      StepKept(config, states[n - 1], actions[n - 1], states[n]);
      assert Grows(Of(states[n - 1].event, endpoint), Of(states[n].event, endpoint));
    }
  }

  // There is never more than one open message, and once there is none every
  // subscribed endpoint has come to an end.
  lemma ProcessedMeansDone(config: Config, states: seq<System>, actions: seq<Action>, n: nat, endpoint: Endpoint)
    requires config.maxAttempts > 0 && Execution(config, states, actions) && Starts(states) && n < |states|
    requires endpoint in config.endpoints
    ensures forall i, j :: 0 <= i < j < |states[n].event.jobs| ==> states[n].event.jobs[i].processed || states[n].event.jobs[j].processed
    ensures !OpenJob(states[n].event) ==>
              && Of(states[n].event, endpoint) != []
              && Last(Of(states[n].event, endpoint)).status in {Delivered, Failed, Exhausted}
  {
    hide Next, Fenced, WorkerSound;
    AllSound(config, states, actions, n);
  }

  predicate IsReplay(action: Action) {
    action.Replay?
  }

  // From then on no attempt starts or changes without a manual replay.
  lemma {:induction false} QuietAfterwards(config: Config, states: seq<System>, actions: seq<Action>, m: nat, n: nat)
    requires config.maxAttempts > 0 && Execution(config, states, actions) && Starts(states) && m <= n < |states|
    requires !OpenJob(states[m].event)
    requires forall k :: m <= k < n ==> !IsReplay(actions[k])
    ensures forall endpoint :: Of(states[n].event, endpoint) == Of(states[m].event, endpoint)
    ensures !OpenJob(states[n].event)
    decreases n - m
  {
    hide Sound, Next, OpenJob;
    if m < n {
      QuietAfterwards(config, states, actions, m, n - 1);
      AllSound(config, states, actions, n - 1);
      assert !IsReplay(actions[n - 1]);
      QuietStep(config, states[n - 1], actions[n - 1], states[n]);
    }
  }

  lemma QuietStep(config: Config, s: System, action: Action, t: System)
    requires config.maxAttempts > 0 && Sound(config, s) && Next(config, s, action, t) && !OpenJob(s.event) && !action.Replay?
    ensures forall endpoint :: Of(t.event, endpoint) == Of(s.event, endpoint)
    ensures !OpenJob(t.event)
  {
    hide Fenced, StartNext;
    match action
    case Begin(_, _) =>
    case Visit(w, now) =>
      var endpoint := config.endpoints[s.workers[w].visited];
      assert Idle(Of(s.event, endpoint));
      FencedAt(config, s, endpoint);
      StartKeepsFence(Of(s.event, endpoint), now, config.leaseFor, Replays(s, endpoint), config.maxAttempts);
    case Answer(w, response, now) =>
      var endpoint := config.endpoints[s.workers[w].visited];
      assert Idle(Of(s.event, endpoint));
      NoneInFlight(config, s, endpoint);
    case Finish(w, now) =>
      FinishKept(config, s, w, now, t);
    case Crash(_) =>
  }

  lemma NoneInFlight(config: Config, s: System, endpoint: Endpoint)
    requires Sound(config, s) && Idle(Of(s.event, endpoint))
    ensures forall i :: 0 <= i < |Of(s.event, endpoint)| ==> Of(s.event, endpoint)[i].status != InFlight
  {
    hide JobsSound, WorkerSound;
    FencedAt(config, s, endpoint);
  }
}
