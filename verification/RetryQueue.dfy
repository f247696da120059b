/** The retrying job queue: the options every queue is created with, the library's retry decision
    with exponential backoff, and the worker's `failed` handler that fires the final-failure hook. The
    handler runs after the failure is recorded, so the worker can be lost in between. */
module RetryQueue {
  import opened Wrappers

  datatype Options = Options(attempts: Option<nat>, delay: nat)

  const DEFAULT_OPTIONS := Options(Some(5), 2000)

  datatype Status = Waiting | Active | Completed | Failed

  /** Failures that the handler takes for final: how many it has yet to handle, has fired the hook for, and
      never got to because its worker was lost. */
  datatype Hooks = Hooks(due: nat, fired: nat, lost: nat)

  const NO_HOOKS := Hooks(0, 0, 0)

  /** `backoff` is the total waiting time imposed so far. */
  datatype Job = Job(opts: Options, attemptsMade: nat, status: Status, backoff: nat, hooks: Hooks)

  /** A crash loses the worker without an attempt being recorded; the queue redelivers the job. `FireHook`
      is the handler's run, `LoseHook` the loss of the worker before it. */
  datatype Event = Pick | Complete | Throw(unrecoverable: bool) | Crash | FireHook | LoseHook

  function NewJob(opts: Options): Job {
    Job(opts, 0, Waiting, 0, NO_HOOKS)
  }

  function OneDue(hooks: Hooks): Hooks { hooks.(due := hooks.due + 1) }

  function OneFired(hooks: Hooks): Hooks {
    Hooks(if hooks.due > 0 then hooks.due - 1 else 0, hooks.fired + 1, hooks.lost)
  }

  /** The handler's own decision, taken from the event's job (absent or not) and error. */
  predicate IsFinalAttempt(job: Option<Job>, unrecoverable: bool) {
    job.None? || job.value.attemptsMade >= job.value.opts.attempts.GetOr(1) || unrecoverable
  }

  /** The library's decision: with no configured attempts a job is never retried. */
  predicate WillRetry(job: Job, unrecoverable: bool) {
    job.attemptsMade < job.opts.attempts.GetOr(0) && !unrecoverable
  }

  function Pow2(n: nat): (p: nat)
    ensures p >= 1
  {
    if n == 0 then 1 else 2 * Pow2(n - 1)
  }

  function Next(job: Job, event: Event): Job {
    match event
    case Pick => if job.status.Waiting? then job.(status := Active) else job
    case Complete => if job.status.Active? then job.(status := Completed) else job
    case Crash => if job.status.Active? then job.(status := Waiting) else job
    case Throw(unrecoverable) =>
      if !job.status.Active? then job
      else
        var counted := job.(attemptsMade := job.attemptsMade + 1);
        var settled :=
          if WillRetry(counted, unrecoverable)
          then counted.(status := Waiting, backoff := job.backoff + job.opts.delay * Pow2(job.attemptsMade))
          else counted.(status := Failed);
        if IsFinalAttempt(Some(counted), unrecoverable) then settled.(hooks := OneDue(job.hooks)) else settled
    case FireHook => if job.hooks.due > 0 then job.(hooks := OneFired(job.hooks)) else job
    case LoseHook =>
      if job.hooks.due > 0
      then job.(hooks := Hooks(job.hooks.due - 1, job.hooks.fired, job.hooks.lost + 1)) else job
  }

  function Run(opts: Options, events: seq<Event>): Job {
    if |events| == 0 then NewJob(opts) else Next(Run(opts, events[..|events| - 1]), events[|events| - 1])
  }

  /** What holds of a job at every moment of its life. */
  ghost predicate Accounted(job: Job) {
    var limit := job.opts.attempts.GetOr(1);
    && job.hooks.due + job.hooks.fired + job.hooks.lost == (if job.status.Failed? then 1 else 0)
    && (job.status.Failed? ==> job.attemptsMade >= 1)
    && (!job.status.Failed? ==>
          && (job.attemptsMade == 0 || job.attemptsMade < limit)
          && job.backoff == job.opts.delay * (Pow2(job.attemptsMade) - 1))
    && (job.status.Failed? ==>
          && (job.attemptsMade == 1 || job.attemptsMade <= limit)
          && job.backoff == job.opts.delay * (Pow2(job.attemptsMade - 1) - 1))
  }

  lemma DoubledBackoff(delay: nat, k: nat)
    ensures delay * (Pow2(k) - 1) + delay * Pow2(k) == delay * (Pow2(k + 1) - 1)
  {
  }

  lemma NextAccounted(job: Job, event: Event)
    requires Accounted(job)
    ensures Accounted(Next(job, event))
    ensures Next(job, event).opts == job.opts
  {
    DoubledBackoff(job.opts.delay, job.attemptsMade);
  }

  lemma {:induction false} RunAccounted(opts: Options, events: seq<Event>)
    ensures Accounted(Run(opts, events)) && Run(opts, events).opts == opts
  {
    if |events| > 0 {
      RunAccounted(opts, events[..|events| - 1]);
      NextAccounted(Run(opts, events[..|events| - 1]), events[|events| - 1]);
    }
  }

  /** The hook fires at most once, and only for a job that has failed for good: such a job's hook has fired,
      is due, or was lost with its worker, and it is exactly one of these. A job that is over is never
      delivered again, and its hook stays fired or lost; a due one fires when its handler runs. */
  lemma HookFiresOnceAtTheEnd(opts: Options, events: seq<Event>, later: seq<Event>)
    ensures var job, settled := Run(opts, events), Run(opts, events + later);
            && job.hooks.due + job.hooks.fired + job.hooks.lost == (if job.status.Failed? then 1 else 0)
            && (job.status in {Failed, Completed} ==> settled == job.(hooks := settled.hooks))
            && (job.status in {Failed, Completed} && job.hooks.due == 0 ==> settled == job)
            && (job.hooks.due > 0 ==> Next(job, FireHook) == job.(hooks := Hooks(0, 1, 0)))
            && (LoseHook !in events ==> job.hooks.lost == 0)
  {
    RunAccounted(opts, events);
    if Run(opts, events).status in {Failed, Completed} { Settled(opts, events, later); }
    if LoseHook !in events { LostOnlyWithWorker(opts, events); }
  }

  lemma {:induction false} Settled(opts: Options, events: seq<Event>, later: seq<Event>)
    requires Run(opts, events).status in {Failed, Completed}
    ensures var job, settled := Run(opts, events), Run(opts, events + later);
            && settled == job.(hooks := settled.hooks)
            && (job.hooks.due == 0 ==> settled == job)
  {
    if |later| == 0 {
      assert events + later == events;
    } else {
      assert (events + later)[..|events + later| - 1] == events + later[..|later| - 1];
      Settled(opts, events, later[..|later| - 1]);
    }
  }

  lemma {:induction false} LostOnlyWithWorker(opts: Options, events: seq<Event>)
    requires LoseHook !in events
    ensures Run(opts, events).hooks.lost == 0
  {
    if |events| > 0 {
      LostOnlyWithWorker(opts, events[..|events| - 1]);
      assert events[|events| - 1] in events;
    }
  }

  /** A crashed attempt costs nothing: the queue delivers the job again as it was, however often. */
  lemma CrashIsRedelivered(opts: Options, events: seq<Event>)
    requires Run(opts, events).status.Active?
    ensures Run(opts, events + [Crash]).status.Waiting?
    ensures Run(opts, events + [Crash] + [Pick]) == Run(opts, events)
  {
    assert (events + [Crash])[..|events|] == events;
    assert (events + [Crash] + [Pick])[..|events| + 1] == events + [Crash];
  }

  /** A thrown attempt is the final one, in the handler's eyes, exactly when the library will not
      retry: attempts exhausted or an unrecoverable error. */
  lemma FinalMeansNotRetried(opts: Options, events: seq<Event>, unrecoverable: bool)
    requires Run(opts, events).status.Active?
    ensures var before := Run(opts, events);
            var after := Run(opts, events + [Throw(unrecoverable)]);
            && after.attemptsMade == before.attemptsMade + 1
            && after.hooks == (if after.status.Waiting? then before.hooks else OneDue(before.hooks))
            && (after.status.Failed? <==> unrecoverable || after.attemptsMade >= opts.attempts.GetOr(1))
  {
    RunAccounted(opts, events);
    assert (events + [Throw(unrecoverable)])[..|events|] == events;
  }

  lemma {:induction false} Pow2Monotone(a: nat, b: nat)
    requires a <= b
    ensures Pow2(a) <= Pow2(b)
  {
    if a < b {
      Pow2Monotone(a, b - 1);
    }
  }

  /** Whatever happens, the total backoff stays within delay * (2^(attempts - 1) - 1). */
  lemma BackoffBound(opts: Options, events: seq<Event>)
    requires opts.attempts.GetOr(1) >= 1
    ensures Run(opts, events).backoff <= opts.delay * (Pow2(opts.attempts.GetOr(1) - 1) - 1)
  {
    RunAccounted(opts, events);
    var job := Run(opts, events);
    var limit := opts.attempts.GetOr(1);
    var k := if job.status.Failed? then job.attemptsMade - 1 else job.attemptsMade;
    Pow2Monotone(k, limit - 1);
    ScaledMonotone(opts.delay, Pow2(k) - 1, Pow2(limit - 1) - 1);
  }

  lemma ScaledMonotone(delay: nat, a: nat, b: nat)
    requires a <= b
    ensures delay * a <= delay * b
  {
  }

  const FIVE_FAILURES := [Pick, Throw(false), Pick, Throw(false), Pick, Throw(false), Pick, Throw(false), Pick,
                          Throw(false)]

  /** A job with the default options after `n` attempts that threw. */
  function Retried(n: nat, backoff: nat): Job {
    Job(DEFAULT_OPTIONS, n, Waiting, backoff, NO_HOOKS)
  }

  lemma TwoMore(events: seq<Event>, before: Job, after: Job)
    requires Run(DEFAULT_OPTIONS, events) == before && Next(Next(before, Pick), Throw(false)) == after
    ensures Run(DEFAULT_OPTIONS, events + [Pick, Throw(false)]) == after
  {
    var all := events + [Pick, Throw(false)];
    assert all[..|all| - 1] == events + [Pick];
    assert (events + [Pick])[..|events|] == events;
  }

  lemma FiveFailures()
    ensures Run(DEFAULT_OPTIONS, FIVE_FAILURES) == Job(DEFAULT_OPTIONS, 5, Failed, 30000, Hooks(1, 0, 0))
  {
    var two := [Pick, Throw(false)];
    assert [] + two == two;
    TwoMore([], Retried(0, 0), Retried(1, 2000));
    TwoMore(two, Retried(1, 2000), Retried(2, 6000));
    TwoMore(two + two, Retried(2, 6000), Retried(3, 14000));
    TwoMore(two + two + two, Retried(3, 14000), Retried(4, 30000));
    TwoMore(two + two + two + two, Retried(4, 30000), Job(DEFAULT_OPTIONS, 5, Failed, 30000, Hooks(1, 0, 0)));
    assert two + two + two + two + two == FIVE_FAILURES;
  }

  /** With the default options no job waits longer than 30 seconds in total, and a job whose
      five attempts all throw waits exactly that long before its hook is due. */
  lemma DefaultBackoff(events: seq<Event>)
    ensures Run(DEFAULT_OPTIONS, events).backoff <= 30000
    ensures Run(DEFAULT_OPTIONS, FIVE_FAILURES) == Job(DEFAULT_OPTIONS, 5, Failed, 30000, Hooks(1, 0, 0))
  {
    BackoffBound(DEFAULT_OPTIONS, events);
    assert Pow2(4) == 16;
    FiveFailures();
  }

  /** One job as a worker handles it: the counters change in place. */
  class Worker {
    const opts: Options
    var attemptsMade: nat
    var status: Status
    var backoff: nat
    var hooks: Hooks

    constructor (opts: Options)
      ensures State() == NewJob(opts)
    {
      this.opts := opts;
      attemptsMade, status, backoff, hooks := 0, Waiting, 0, NO_HOOKS;
    }

    function State(): Job
      reads this
    {
      Job(opts, attemptsMade, status, backoff, hooks)
    }

    /** A processor run that threw: the library counts and reschedules or fails the job, and emits the
        failure for the handler. A hook is then due exactly if the job has failed. */
    method Fail(unrecoverable: bool) returns (failed: bool)
      requires status.Active?
      modifies this
      ensures State() == Next(old(State()), Throw(unrecoverable))
      ensures attemptsMade == old(attemptsMade) + 1
      ensures failed <==> unrecoverable || attemptsMade >= opts.attempts.GetOr(1)
      ensures status == if failed then Failed else Waiting
      ensures backoff == old(backoff) + (if failed then 0 else opts.delay * Pow2(old(attemptsMade)))
      ensures hooks == if failed then OneDue(old(hooks)) else old(hooks)
    {
      attemptsMade := attemptsMade + 1;
      failed := attemptsMade >= opts.attempts.GetOr(0) || unrecoverable;
      if failed {
        status := Failed;
        hooks := OneDue(hooks);
      } else {
        status := Waiting;
        backoff := backoff + opts.delay * Pow2(attemptsMade - 1);
      }
    }

    /** The `failed` event handler; the event may come without a job. */
    method OnFailed(hasJob: bool, unrecoverable: bool) returns (isFinal: bool)
      modifies this`hooks
      ensures isFinal == IsFinalAttempt(if hasJob then Some(old(State())) else None, unrecoverable)
      ensures hasJob && attemptsMade > 0 ==> (isFinal <==> !WillRetry(old(State()), unrecoverable))
      ensures isFinal && old(hooks).due > 0 ==> State() == Next(old(State()), FireHook)
      ensures hooks == if isFinal then OneFired(old(hooks)) else old(hooks)
    {
      isFinal := !hasJob || attemptsMade >= opts.attempts.GetOr(1) || unrecoverable;
      if isFinal {
        hooks := OneFired(hooks);
      }
    }

    /** With nothing in between, the handler fires the hook of a job that has failed, and of no other. */
    method FailAndHandle(unrecoverable: bool)
      requires status.Active? && Accounted(State())
      modifies this
      ensures Accounted(State())
      ensures State() == Next(Next(old(State()), Throw(unrecoverable)), FireHook)
      ensures hooks == if status.Failed? then Hooks(0, 1, 0) else NO_HOOKS
    {
      NextAccounted(State(), Throw(unrecoverable));
      var failed := Fail(unrecoverable);
      NextAccounted(State(), FireHook);
      var isFinal := OnFailed(true, unrecoverable);
    }
  }
}
