/**
 The status of one sync job, with the queue whose workers write it: a delivery belongs to a running
 handler of the job's message, and the handler ends only after its delivery has.
 */
module JobDeliveries {
  import Jobs = ProductSync
  import Sqs = SqsConsumer
  import OneWorker
  import Lease
  import JobStatus

  datatype Both = Both(queue: Sqs.Service, job: JobStatus.System)

  datatype Event = Queue(action: Sqs.Action) | Job(write: JobStatus.Action)

  const START := Both(Sqs.EMPTY, JobStatus.START)

  /** Nothing here keeps deliveries apart; other code does not write the status at the same time. */
  const ANY := JobStatus.Scope(true, false)
  const APART := JobStatus.Scope(false, false)

  /** The delivery that a running handler of `m` makes. */
  function WriterOf(cfg: Sqs.Config, s: Sqs.Service, c: Sqs.ConsumerId, m: Sqs.MessageId): JobStatus.Writer
    requires Sqs.InPhase(s, c, m, Sqs.Running)
  {
    var n := Sqs.Held(s, c, m).receiveCount;
    JobStatus.Attempt(n, cfg.IsFinalAttempt(n))
  }

  predicate Drives(cfg: Sqs.Config, s: Sqs.Service, c: Sqs.ConsumerId, m: Sqs.MessageId, w: JobStatus.Writer) {
    Sqs.InPhase(s, c, m, Sqs.Running) && w == WriterOf(cfg, s, c, m)
  }

  /** `m` is the job's message. */
  ghost predicate Enabled(cfg: Sqs.Config, m: Sqs.MessageId, b: Both, e: Event) {
    match e
    case Queue(a) =>
      Sqs.Enabled(cfg, b.queue, a) &&
      forall c, w | Drives(cfg, b.queue, c, m, w) && Sqs.EndsHandler(a, c, m) :: !JobStatus.Live(b.job, w)
    case Job(a) =>
      JobStatus.Enabled(ANY, b.job, a) && (a.Deliver? ==> exists c :: Drives(cfg, b.queue, c, m, a.w))
  }

  ghost function Next(cfg: Sqs.Config, m: Sqs.MessageId, b: Both, e: Event): Both
    requires Enabled(cfg, m, b, e)
  {
    match e
    case Queue(a) => b.(queue := Sqs.Next(cfg, b.queue, a))
    case Job(a) => b.(job := JobStatus.Next(ANY, b.job, a))
  }

  ghost predicate Legal(cfg: Sqs.Config, m: Sqs.MessageId, run: seq<Event>)
    decreases |run|, 0
  {
    run == [] ||
    (Legal(cfg, m, run[..|run| - 1]) && Enabled(cfg, m, Run(cfg, m, run[..|run| - 1]), run[|run| - 1]))
  }

  ghost function Run(cfg: Sqs.Config, m: Sqs.MessageId, run: seq<Event>): Both
    requires Legal(cfg, m, run)
    decreases |run|, 1
  {
    if run == [] then START else Next(cfg, m, Run(cfg, m, run[..|run| - 1]), run[|run| - 1])
  }

  // ----- The two sides of a run ----------------------------------------------------------------------

  function QueueActs(run: seq<Event>): seq<Sqs.Action> {
    if run == [] then []
    else
      var e := run[|run| - 1];
      QueueActs(run[..|run| - 1]) + if e.Queue? then [e.action] else []
  }

  function JobActs(run: seq<Event>): seq<JobStatus.Action> {
    if run == [] then []
    else
      var e := run[|run| - 1];
      JobActs(run[..|run| - 1]) + if e.Job? then [e.write] else []
  }

  lemma {:induction false} QueueSide(cfg: Sqs.Config, m: Sqs.MessageId, run: seq<Event>)
    requires Legal(cfg, m, run)
    ensures Sqs.Legal(cfg, Sqs.EMPTY, QueueActs(run))
    ensures Sqs.Run(cfg, Sqs.EMPTY, QueueActs(run)) == Run(cfg, m, run).queue
    decreases |run|
  {
    if run != [] {
      var front, e := run[..|run| - 1], run[|run| - 1];
      QueueSide(cfg, m, front);
      if e.Queue? {
        assert QueueActs(run)[..|QueueActs(run)| - 1] == QueueActs(front);
      } else {
        assert QueueActs(run) == QueueActs(front);
      }
    }
  }

  /** Every delivery at work belongs to a running handler. */
  ghost predicate AllDriven(cfg: Sqs.Config, m: Sqs.MessageId, b: Both) {
    forall w | JobStatus.Live(b.job, w) && w.Attempt? :: exists c :: Drives(cfg, b.queue, c, m, w)
  }

  lemma StepKeepsDriven(cfg: Sqs.Config, m: Sqs.MessageId, b: Both, e: Event)
    requires AllDriven(cfg, m, b) && Enabled(cfg, m, b, e)
    ensures AllDriven(cfg, m, Next(cfg, m, b, e))
  {
    var t := Next(cfg, m, b, e);
    forall w | JobStatus.Live(t.job, w) && w.Attempt? ensures exists c :: Drives(cfg, t.queue, c, m, w) {
      if e.Job? {
        assert JobStatus.Live(b.job, w) || e.write == JobStatus.Deliver(w);
      } else {
        var c :| Drives(cfg, b.queue, c, m, w);
        Sqs.KeepsRunning(cfg, b.queue, e.action, c, m);
        assert Drives(cfg, t.queue, c, m, w);
      }
    }
  }

  lemma {:induction false} RunKeepsDriven(cfg: Sqs.Config, m: Sqs.MessageId, run: seq<Event>)
    requires Legal(cfg, m, run)
    ensures AllDriven(cfg, m, Run(cfg, m, run))
    decreases |run|
  {
    if run != [] {
      RunKeepsDriven(cfg, m, run[..|run| - 1]);
      StepKeepsDriven(cfg, m, Run(cfg, m, run[..|run| - 1]), run[|run| - 1]);
    }
  }

  // ----- While leases hold ---------------------------------------------------------------------------------

  /** With one worker per message no two deliveries are at work. */
  lemma WritesApart(cfg: Sqs.Config, m: Sqs.MessageId, b: Both, a: JobStatus.Action)
    requires AllDriven(cfg, m, b) && OneWorker.OneHolder(false, b.queue) && Enabled(cfg, m, b, Job(a))
    ensures JobStatus.Enabled(APART, b.job, a)
  {
    if a.Deliver? {
      var c :| Drives(cfg, b.queue, c, m, a.w);
      forall v | JobStatus.Live(b.job, v) && v.Attempt? ensures v == a.w {
        var e :| Drives(cfg, b.queue, e, m, v);
        assert OneWorker.InHand(false, b.queue, c, m) && OneWorker.InHand(false, b.queue, e, m);
      }
    }
  }

  lemma {:induction false} LeasesHeldBefore(cfg: Sqs.Config, m: Sqs.MessageId, run: seq<Event>)
    requires Legal(cfg, m, run) && run != []
    requires Sqs.Legal(cfg, Sqs.EMPTY, QueueActs(run)) && OneWorker.LeasesHold(false, cfg, Sqs.EMPTY, QueueActs(run))
    ensures Sqs.Legal(cfg, Sqs.EMPTY, QueueActs(run[..|run| - 1]))
    ensures OneWorker.LeasesHold(false, cfg, Sqs.EMPTY, QueueActs(run[..|run| - 1]))
  {
    if run[|run| - 1].Queue? {
      assert QueueActs(run)[..|QueueActs(run)| - 1] == QueueActs(run[..|run| - 1]);
    } else {
      assert QueueActs(run) == QueueActs(run[..|run| - 1]);
    }
  }

  /** While leases hold, the writers of a job's status are a system whose deliveries do not overlap. */
  lemma {:induction false} JobSide(cfg: Sqs.Config, m: Sqs.MessageId, run: seq<Event>)
    requires Legal(cfg, m, run)
    requires Sqs.Legal(cfg, Sqs.EMPTY, QueueActs(run)) && OneWorker.LeasesHold(false, cfg, Sqs.EMPTY, QueueActs(run))
    ensures JobStatus.Legal(APART, JobStatus.START, JobActs(run))
    ensures JobStatus.Run(APART, JobStatus.START, JobActs(run)) == Run(cfg, m, run).job
    decreases |run|
  {
    if run != [] {
      var front, e := run[..|run| - 1], run[|run| - 1];
      LeasesHeldBefore(cfg, m, run);
      JobSide(cfg, m, front);
      if e.Job? {
        QueueSide(cfg, m, front);
        RunKeepsDriven(cfg, m, front);
        OneWorker.NoSecondWorker(false, cfg, QueueActs(front));
        WritesApart(cfg, m, Run(cfg, m, front), e.write);
        assert JobActs(run)[..|JobActs(run)| - 1] == JobActs(front);
      } else {
        assert JobActs(run) == JobActs(front);
      }
    }
  }

  /** In every run in which no lease runs out before or under a handler, the job keeps its first terminal status. */
  lemma SettledWhileLeasesHold(cfg: Sqs.Config, m: Sqs.MessageId, run: seq<Event>)
    requires Legal(cfg, m, run)
    requires Sqs.Legal(cfg, Sqs.EMPTY, QueueActs(run)) && OneWorker.LeasesHold(false, cfg, Sqs.EMPTY, QueueActs(run))
    ensures JobStatus.StaysSettled(Run(cfg, m, run).job)
  {
    JobSide(cfg, m, run);
    JobStatus.RunKeepsInv(JobActs(run));
  }

  // ----- Exactly when leases are long enough -----------------------------------------------------------------

  /** In no timely run does a job lose its first terminal status. */
  ghost predicate AlwaysStaysSettled(cfg: Sqs.Config, d: OneWorker.Deployment)
    requires d.Valid()
  {
    forall m, run, timing: OneWorker.Timing |
      Legal(cfg, m, run) && Sqs.Legal(cfg, Sqs.EMPTY, QueueActs(run)) &&
      OneWorker.Timely(cfg, d, timing, QueueActs(run)) &&
      (forall i: nat :: Lease.Possible(d.network, timing.beats(i))) :: JobStatus.StaysSettled(Run(cfg, m, run).job)
  }

  lemma Then(cfg: Sqs.Config, m: Sqs.MessageId, run: seq<Event>, e: Event) returns (longer: seq<Event>)
    requires Legal(cfg, m, run) && Enabled(cfg, m, Run(cfg, m, run), e)
    ensures Legal(cfg, m, longer) && Run(cfg, m, longer) == Next(cfg, m, Run(cfg, m, run), e)
    ensures QueueActs(longer) == QueueActs(run) + if e.Queue? then [e.action] else []
  {
    longer := run + [e];
    assert longer[..|longer| - 1] == run;
  }

  /** The queue alone, before any delivery has touched the job. */
  lemma {:induction false} QueueAlone(cfg: Sqs.Config, m: Sqs.MessageId, acts: seq<Sqs.Action>) returns (run: seq<Event>)
    requires Sqs.Legal(cfg, Sqs.EMPTY, acts)
    ensures Legal(cfg, m, run) && QueueActs(run) == acts
    ensures Run(cfg, m, run) == START.(queue := Sqs.Run(cfg, Sqs.EMPTY, acts))
    decreases |acts|
  {
    if acts == [] {
      run := [];
    } else {
      run := QueueAlone(cfg, m, acts[..|acts| - 1]);
      run := Then(cfg, m, run, Queue(acts[|acts| - 1]));
    }
  }

  lemma {:induction false} ActsGoOn(
    cfg: Sqs.Config, m: Sqs.MessageId, run: seq<Event>, acts: seq<JobStatus.Action>) returns (longer: seq<Event>)
    requires Legal(cfg, m, run) && JobStatus.Legal(ANY, Run(cfg, m, run).job, acts) && JobStatus.NoneBegins(acts)
    ensures Legal(cfg, m, longer) && QueueActs(longer) == QueueActs(run)
    ensures Run(cfg, m, longer) == Run(cfg, m, run).(job := JobStatus.Run(ANY, Run(cfg, m, run).job, acts))
    decreases |acts|
  {
    longer := run;
    if acts != [] {
      var front := acts[..|acts| - 1];
      assert JobStatus.NoneBegins(front) by { assert forall i | 0 <= i < |front| :: front[i] == acts[i]; }
      longer := ActsGoOn(cfg, m, run, front);
      longer := Then(cfg, m, longer, Job(acts[|acts| - 1]));
    }
  }

  /** Deliveries under way go on while the queue stands still. */
  lemma JobGoesOn(cfg: Sqs.Config, m: Sqs.MessageId, run: seq<Event>, t: JobStatus.System) returns (longer: seq<Event>)
    requires Legal(cfg, m, run) && JobStatus.GoesTo(ANY, Run(cfg, m, run).job, t)
    ensures Legal(cfg, m, longer) && QueueActs(longer) == QueueActs(run)
    ensures Run(cfg, m, longer) == Run(cfg, m, run).(job := t)
  {
    var s := Run(cfg, m, run).job;
    var acts :| JobStatus.Legal(ANY, s, acts) && JobStatus.Run(ANY, s, acts) == t && JobStatus.NoneBegins(acts);
    longer := ActsGoOn(cfg, m, run, acts);
  }

  /** The first handler has read the job for its PROCESSING mark when the second begins. */
  lemma FirstReads(cfg: Sqs.Config, acts: seq<Sqs.Action>) returns (run: seq<Event>)
    requires Sqs.Legal(cfg, Sqs.EMPTY, acts) && OneWorker.BothRun(Sqs.Run(cfg, Sqs.EMPTY, acts))
    ensures Legal(cfg, 0, run) && QueueActs(run) == acts
    ensures
      var v := JobStatus.Attempt(1, cfg.IsFinalAttempt(1));
      Run(cfg, 0, run) ==
        Both(Sqs.Run(cfg, Sqs.EMPTY, acts), JobStatus.Put(JobStatus.START, v, JobStatus.Writing(Jobs.Processing)))
  {
    var v := JobStatus.Attempt(1, cfg.IsFinalAttempt(1));
    run := QueueAlone(cfg, 0, acts);
    assert Drives(cfg, Run(cfg, 0, run).queue, 0, 0, v);
    run := Then(cfg, 0, run, Job(JobStatus.Deliver(v)));
    JobStatus.AboutToWrite(ANY, JobStatus.START, v);
    run := JobGoesOn(cfg, 0, run, JobStatus.Put(JobStatus.START, v, JobStatus.Writing(Jobs.Processing)));
  }

  /** The second handler completes the job, then the first makes its write. */
  lemma SecondCompletes(cfg: Sqs.Config, acts: seq<Sqs.Action>) returns (run: seq<Event>)
    requires Sqs.Legal(cfg, Sqs.EMPTY, acts) && OneWorker.BothRun(Sqs.Run(cfg, Sqs.EMPTY, acts))
    ensures Legal(cfg, 0, run) && QueueActs(run) == acts && !JobStatus.StaysSettled(Run(cfg, 0, run).job)
  {
    var v, w := JobStatus.Attempt(1, cfg.IsFinalAttempt(1)), JobStatus.Attempt(2, cfg.IsFinalAttempt(2));
    run := FirstReads(cfg, acts);
    var s := Run(cfg, 0, run).job;
    assert Drives(cfg, Run(cfg, 0, run).queue, 1, 0, w);
    run := Then(cfg, 0, run, Job(JobStatus.Deliver(w)));
    var t := JobStatus.Unsettles(ANY, s, v, w, Jobs.Processing);
    run := JobGoesOn(cfg, 0, run, t);
  }

  /**
   On a queue that allows two receives, a job's first terminal status is for good over every timely run
   exactly when the lease outlasts the longest gap between two renewals.
   */
  lemma StaysSettledIff(cfg: Sqs.Config, d: OneWorker.Deployment)
    requires d.Valid() && cfg.redriveAfter >= 2
    ensures AlwaysStaysSettled(cfg, d) <==> Lease.Gap(d.timeout, d.network) < d.timeout
  {
    if Lease.Gap(d.timeout, d.network) < d.timeout {
      forall m, run, timing: OneWorker.Timing |
        Legal(cfg, m, run) && Sqs.Legal(cfg, Sqs.EMPTY, QueueActs(run)) &&
        OneWorker.Timely(cfg, d, timing, QueueActs(run)) &&
        (forall i: nat :: Lease.Possible(d.network, timing.beats(i))) ensures JobStatus.StaysSettled(Run(cfg, m, run).job)
      {
        OneWorker.TimelyLeasesHold(false, cfg, d, timing, QueueActs(run));
        SettledWhileLeasesHold(cfg, m, run);
      }
    } else {
      Lease.WorstIsPossible(d.network);
      var acts := OneWorker.SecondBegins(cfg, d);
      var run := SecondCompletes(cfg, acts);
      var timing := OneWorker.WorstTiming(d, 0.0, d.timeout);
      assert forall i: nat :: timing.beats(i) == Lease.Worst(d.network);
    }
  }
}
