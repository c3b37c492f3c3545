/**
 What `isFinalAttempt` is worth to a handler: whether it tells, in every run of the queue and its
 consumers, that the message of the running job will not be delivered again.
 */
module FinalAttempt {
  import opened SqsConsumer
  import OneWorker

  /** The handler runs on `m` in process `c`, and the message is still in the queue. */
  ghost predicate RunsOn(s: Service, c: ConsumerId, m: MessageId) {
    InPhase(s, c, m, Running) && m in s.messages && !s.messages[m].place.Left?
  }

  /** What the handler is told. */
  predicate Flag(cfg: Config, s: Service, c: ConsumerId, m: MessageId)
    requires InPhase(s, c, m, Running)
  {
    cfg.IsFinalAttempt(s.consumers[c].loop.batch[m].receiveCount)
  }

  /** No run from here makes the message receivable. */
  ghost predicate NeverAgain(cfg: Config, s: Service, m: MessageId) {
    forall acts | Legal(cfg, s, acts) :: !Receivable(cfg, Run(cfg, s, acts), m)
  }

  /** The job comes from the message's latest receive. */
  predicate IsLatest(s: Service, c: ConsumerId, m: MessageId)
    requires InPhase(s, c, m, Running) && m in s.messages
  {
    s.consumers[c].loop.batch[m].receiveCount == s.messages[m].receives
  }

  /** In every run: told "final", the handler's message never comes back. */
  ghost predicate FinalIsFinal(cfg: Config) {
    forall acts, c, m | Legal(cfg, EMPTY, acts) && RunsOn(Run(cfg, EMPTY, acts), c, m) ::
      Flag(cfg, Run(cfg, EMPTY, acts), c, m) ==> NeverAgain(cfg, Run(cfg, EMPTY, acts), m)
  }

  /** In every run: told "not final", the handler of the latest receive will be retried if it fails. */
  ghost predicate NotFinalIsRetried(cfg: Config) {
    forall acts, c, m | Legal(cfg, EMPTY, acts) && RunsOn(Run(cfg, EMPTY, acts), c, m) ::
      IsLatest(Run(cfg, EMPTY, acts), c, m) && !Flag(cfg, Run(cfg, EMPTY, acts), c, m) ==>
        !NeverAgain(cfg, Run(cfg, EMPTY, acts), m)
  }

  /** The flag tells the truth to every handler in every run, leases that lapsed included. */
  ghost predicate FlagIsExact(cfg: Config) {
    forall acts, c, m | Legal(cfg, EMPTY, acts) && RunsOn(Run(cfg, EMPTY, acts), c, m) ::
      Flag(cfg, Run(cfg, EMPTY, acts), c, m) <==> NeverAgain(cfg, Run(cfg, EMPTY, acts), m)
  }

  // ----- Messages that come back, and messages that do not ------------------------------------------

  lemma UsedUpIsOver(cfg: Config, s: Service, m: MessageId)
    requires m in s.messages && s.messages[m].receives >= cfg.redriveAfter
    ensures NeverAgain(cfg, s, m)
  {
    forall acts | Legal(cfg, s, acts) ensures !Receivable(cfg, Run(cfg, s, acts), m) {
      NoReceiveAfterFinal(cfg, s, acts, m);
    }
  }

  lemma StillComesBack(cfg: Config, s: Service, m: MessageId)
    requires m in s.messages && !s.messages[m].place.Left? && s.messages[m].receives < cfg.redriveAfter
    ensures !NeverAgain(cfg, s, m)
  {
    if s.messages[m].place == Visible {
      assert Legal(cfg, s, []) && Run(cfg, s, []) == s;
    } else {
      var acts := Then(cfg, s, [], Expire(m));
      assert Receivable(cfg, Run(cfg, s, acts), m);
    }
  }

  lemma Then(cfg: Config, s: Service, acts: seq<Action>, a: Action) returns (longer: seq<Action>)
    requires Legal(cfg, s, acts) && Enabled(cfg, Run(cfg, s, acts), a)
    ensures longer == acts + [a] && Legal(cfg, s, longer)
    ensures Run(cfg, s, longer) == Next(cfg, Run(cfg, s, acts), a)
    ensures OneWorker.LeasesHold(false, cfg, s, longer)
            <==> OneWorker.LeasesHold(false, cfg, s, acts) && OneWorker.HoldsUp(false, Run(cfg, s, acts), a)
  {
    longer := acts + [a];
    assert longer[..|longer| - 1] == acts;
  }

  // ----- Runs that receive one message any number of times ------------------------------------------

  function Starts(n: nat): seq<Start> {
    if n == 0 then [] else Starts(n - 1) + [Start(0, n)]
  }

  /** Process 0 is polling, message 0 waits with `n` receives behind it. */
  function Waits(n: nat): Service {
    Service(map[0 := Message(true, n, Visible)], map[0 := Consumer(false, Polling)], Starts(n), {})
  }

  function HandledBy(n: nat, phase: Phase): map<MessageId, Job> {
    map[0 := Job(n, true, phase)]
  }

  /** Process 0 runs the handler on receive number `n` of message 0. */
  function Handles(n: nat): Service {
    Service(map[0 := Message(true, n, Hidden)], map[0 := Consumer(false, Working(HandledBy(n, Running)))], Starts(n), {})
  }

  lemma DispatchStep(cfg: Config, s: Service, n: nat)
    requires s.consumers == map[0 := Consumer(false, Received(HandledBy(n, Waiting)))]
    ensures Enabled(cfg, s, Dispatch(0))
    ensures Next(cfg, s, Dispatch(0)) == s.(consumers := map[0 := Consumer(false, Working(HandledBy(n, Waiting)))])
  {
    assert AllIn(HandledBy(n, Waiting), Waiting) == HandledBy(n, Waiting);
  }

  lemma BeginStep(cfg: Config, s: Service, n: nat)
    requires s.consumers == map[0 := Consumer(false, Working(HandledBy(n, Waiting)))]
    ensures Enabled(cfg, s, Begin(0, 0))
    ensures Next(cfg, s, Begin(0, 0)) ==
      s.(consumers := map[0 := Consumer(false, Working(HandledBy(n, Running)))], starts := s.starts + [Start(0, n)])
  {
    assert HandledBy(n, Waiting)[0 := Job(n, true, Running)] == HandledBy(n, Running);
  }

  lemma OneMore(cfg: Config, acts: seq<Action>, n: nat) returns (more: seq<Action>)
    requires Legal(cfg, EMPTY, acts) && Run(cfg, EMPTY, acts) == Waits(n) && n < cfg.redriveAfter
    ensures Legal(cfg, EMPTY, more) && Run(cfg, EMPTY, more) == Handles(n + 1)
    ensures OneWorker.LeasesHold(false, cfg, EMPTY, acts) ==> OneWorker.LeasesHold(false, cfg, EMPTY, more)
  {
    OneWorker.ReceiveStep(cfg, Waits(n), 0, n);
    more := Then(cfg, EMPTY, acts, Receive(0, {0}));
    var s := Run(cfg, EMPTY, more);
    assert s.consumers == map[0 := Consumer(false, Received(HandledBy(n + 1, Waiting)))];
    DispatchStep(cfg, s, n + 1);
    more := Then(cfg, EMPTY, more, Dispatch(0));
    BeginStep(cfg, Run(cfg, EMPTY, more), n + 1);
    more := Then(cfg, EMPTY, more, Begin(0, 0));
  }

  /** The worker dies, its lease runs out, and a new one takes its place. */
  lemma StartOver(cfg: Config, acts: seq<Action>, n: nat) returns (more: seq<Action>)
    requires Legal(cfg, EMPTY, acts) && Run(cfg, EMPTY, acts) == Handles(n)
    ensures Legal(cfg, EMPTY, more) && Run(cfg, EMPTY, more) == Waits(n)
    ensures OneWorker.LeasesHold(false, cfg, EMPTY, acts) ==> OneWorker.LeasesHold(false, cfg, EMPTY, more)
  {
    more := Then(cfg, EMPTY, acts, Crash(0));
    var crashed := Service(map[0 := Message(true, n, Hidden)], map[], Starts(n), {});
    assert Next(cfg, Handles(n), Crash(0)) == crashed;
    more := Then(cfg, EMPTY, more, Expire(0));
    var expired := crashed.(messages := map[0 := Message(true, n, Visible)]);
    assert Next(cfg, crashed, Expire(0)) == expired;
    more := Then(cfg, EMPTY, more, Launch(0));
    assert Next(cfg, expired, Launch(0)) == Waits(n);
  }

  lemma {:induction false} HandlesTimes(cfg: Config, n: nat) returns (acts: seq<Action>)
    requires 1 <= n <= cfg.redriveAfter
    ensures Legal(cfg, EMPTY, acts) && Run(cfg, EMPTY, acts) == Handles(n)
    ensures OneWorker.LeasesHold(false, cfg, EMPTY, acts)
  {
    if n == 1 {
      acts := Then(cfg, EMPTY, [], Send(0, true));
      var sent := Service(map[0 := Message(true, 0, Visible)], map[], [], {});
      assert Next(cfg, EMPTY, Send(0, true)) == sent;
      acts := Then(cfg, EMPTY, acts, Launch(0));
      assert Next(cfg, sent, Launch(0)) == Waits(0);
    } else {
      acts := HandlesTimes(cfg, n - 1);
      acts := StartOver(cfg, acts, n - 1);
    }
    acts := OneMore(cfg, acts, n - 1);
  }

  /** A second process receives the message while the first still runs on it. */
  function Overtaken(n: nat): Service
    requires n >= 1
  {
    Service(
      map[0 := Message(true, n, Hidden)],
      map[0 := Consumer(false, Working(HandledBy(n - 1, Running))), 1 := Consumer(false, Received(HandledBy(n, Waiting)))],
      Starts(n - 1), {})
  }

  lemma Expires(cfg: Config, acts: seq<Action>, n: nat) returns (more: seq<Action>)
    requires Legal(cfg, EMPTY, acts) && Run(cfg, EMPTY, acts) == Handles(n)
    ensures Legal(cfg, EMPTY, more)
    ensures Run(cfg, EMPTY, more) == Handles(n).(messages := map[0 := Message(true, n, Visible)])
  {
    more := Then(cfg, EMPTY, acts, Expire(0));
  }

  /** Message 0 is back although process 0 still runs on it, and process 1 polls. */
  function Joined(n: nat): Service {
    Service(
      map[0 := Message(true, n, Visible)],
      map[0 := Consumer(false, Working(HandledBy(n, Running))), 1 := Consumer(false, Polling)], Starts(n), {})
  }

  lemma Joins(cfg: Config, acts: seq<Action>, n: nat) returns (more: seq<Action>)
    requires Legal(cfg, EMPTY, acts)
    requires Run(cfg, EMPTY, acts) == Handles(n).(messages := map[0 := Message(true, n, Visible)])
    ensures Legal(cfg, EMPTY, more) && Run(cfg, EMPTY, more) == Joined(n)
  {
    more := Then(cfg, EMPTY, acts, Launch(1));
  }

  lemma Overtakes(cfg: Config, acts: seq<Action>, n: nat) returns (more: seq<Action>)
    requires Legal(cfg, EMPTY, acts) && Run(cfg, EMPTY, acts) == Joined(n) && n < cfg.redriveAfter
    ensures Legal(cfg, EMPTY, more) && Run(cfg, EMPTY, more) == Overtaken(n + 1)
  {
    OneWorker.ReceiveStep(cfg, Joined(n), 1, n);
    more := Then(cfg, EMPTY, acts, Receive(1, {0}));
  }

  /**
   A lease that lapses under a running handler lets another process take the last receive: the
   first handler was told "not final", and its message is never delivered again.
   */
  lemma LapsedLease(cfg: Config) returns (acts: seq<Action>)
    requires cfg.redriveAfter >= 2
    ensures Legal(cfg, EMPTY, acts) && Run(cfg, EMPTY, acts) == Overtaken(cfg.redriveAfter)
    ensures
      var s := Run(cfg, EMPTY, acts);
      && RunsOn(s, 0, 0) && NeverAgain(cfg, s, 0)
      && s.consumers[0].loop.batch[0].receiveCount == cfg.redriveAfter - 1
  {
    var n := cfg.redriveAfter - 1;
    acts := HandlesTimes(cfg, n);
    acts := Expires(cfg, acts, n);
    acts := Joins(cfg, acts, n);
    acts := Overtakes(cfg, acts, n);
    UsedUpIsOver(cfg, Overtaken(n + 1), 0);
  }

  // ----- When the flag tells the truth --------------------------------------------------------------

  /** A job's receive count is never above its message's. */
  lemma JobIsBehind(cfg: Config, acts: seq<Action>, c: ConsumerId, m: MessageId)
    requires Legal(cfg, EMPTY, acts) && InPhase(Run(cfg, EMPTY, acts), c, m, Running)
    ensures
      var s := Run(cfg, EMPTY, acts);
      m in s.messages && 1 <= s.consumers[c].loop.batch[m].receiveCount <= s.messages[m].receives
  {
    RunKeepsInv(cfg, acts);
    var s := Run(cfg, EMPTY, acts);
    assert Holds(s, c, m) && JobOk(s, m, Held(s, c, m));
  }

  /** "Final" is final, over every run, exactly when the consumer's limit is not below the queue's. */
  lemma FinalIsFinalIff(cfg: Config)
    requires cfg.redriveAfter >= 1 && cfg.maxReceiveCount >= 1
    ensures FinalIsFinal(cfg) <==> cfg.maxReceiveCount >= cfg.redriveAfter
  {
    if cfg.maxReceiveCount >= cfg.redriveAfter {
      forall acts, c, m | Legal(cfg, EMPTY, acts) && RunsOn(Run(cfg, EMPTY, acts), c, m)
        ensures Flag(cfg, Run(cfg, EMPTY, acts), c, m) ==> NeverAgain(cfg, Run(cfg, EMPTY, acts), m)
      {
        JobIsBehind(cfg, acts, c, m);
        if Flag(cfg, Run(cfg, EMPTY, acts), c, m) { UsedUpIsOver(cfg, Run(cfg, EMPTY, acts), m); }
      }
    } else {
      var acts := HandlesTimes(cfg, cfg.maxReceiveCount);
      assert RunsOn(Run(cfg, EMPTY, acts), 0, 0) && Flag(cfg, Run(cfg, EMPTY, acts), 0, 0);
      StillComesBack(cfg, Handles(cfg.maxReceiveCount), 0);
    }
  }

  /** "Not final" means a retry for the latest receive exactly when the limit is not above the queue's. */
  lemma NotFinalIsRetriedIff(cfg: Config)
    requires cfg.redriveAfter >= 1 && cfg.maxReceiveCount >= 1
    ensures NotFinalIsRetried(cfg) <==> cfg.maxReceiveCount <= cfg.redriveAfter
  {
    if cfg.maxReceiveCount <= cfg.redriveAfter {
      forall acts, c, m | Legal(cfg, EMPTY, acts) && RunsOn(Run(cfg, EMPTY, acts), c, m)
        ensures IsLatest(Run(cfg, EMPTY, acts), c, m) && !Flag(cfg, Run(cfg, EMPTY, acts), c, m) ==>
          !NeverAgain(cfg, Run(cfg, EMPTY, acts), m)
      {
        var s := Run(cfg, EMPTY, acts);
        if IsLatest(s, c, m) && !Flag(cfg, s, c, m) { StillComesBack(cfg, s, m); }
      }
    } else {
      var acts := HandlesTimes(cfg, cfg.redriveAfter);
      var s := Run(cfg, EMPTY, acts);
      assert RunsOn(s, 0, 0) && IsLatest(s, 0, 0) && !Flag(cfg, s, 0, 0);
      UsedUpIsOver(cfg, s, 0);
    }
  }

  /** To be exact for every handler the queue must allow one receive only: else a lapsed lease deceives one. */
  lemma FlagIsExactIff(cfg: Config)
    requires cfg.redriveAfter >= 1 && cfg.maxReceiveCount >= 1
    ensures FlagIsExact(cfg) <==> cfg.redriveAfter == 1 == cfg.maxReceiveCount
  {
    if cfg.redriveAfter == 1 == cfg.maxReceiveCount {
      forall acts, c, m | Legal(cfg, EMPTY, acts) && RunsOn(Run(cfg, EMPTY, acts), c, m)
        ensures Flag(cfg, Run(cfg, EMPTY, acts), c, m) <==> NeverAgain(cfg, Run(cfg, EMPTY, acts), m)
      {
        JobIsBehind(cfg, acts, c, m);
        UsedUpIsOver(cfg, Run(cfg, EMPTY, acts), m);
      }
    } else if cfg.maxReceiveCount < cfg.redriveAfter {
      FinalIsFinalIff(cfg);
    } else if cfg.maxReceiveCount > cfg.redriveAfter {
      NotFinalIsRetriedIff(cfg);
    } else {
      var acts := LapsedLease(cfg);
      assert RunsOn(Run(cfg, EMPTY, acts), 0, 0) && !Flag(cfg, Run(cfg, EMPTY, acts), 0, 0);
    }
  }

  // ----- While leases hold ----------------------------------------------------------------------------

  /** No run from here, in which no lease runs out before or under a handler, makes the message receivable. */
  ghost predicate NeverRetried(cfg: Config, s: Service, m: MessageId) {
    forall acts | Legal(cfg, s, acts) && OneWorker.LeasesHold(false, cfg, s, acts) :: !Receivable(cfg, Run(cfg, s, acts), m)
  }

  /** Over every run in which leases hold, the flag tells every running handler whether it will be retried. */
  ghost predicate LeasedFlagIsExact(cfg: Config) {
    forall acts, c, m |
      Legal(cfg, EMPTY, acts) && OneWorker.LeasesHold(false, cfg, EMPTY, acts) && InPhase(Run(cfg, EMPTY, acts), c, m, Running) ::
      Flag(cfg, Run(cfg, EMPTY, acts), c, m) <==> NeverRetried(cfg, Run(cfg, EMPTY, acts), m)
  }

  lemma UsedUpIsNotRetried(cfg: Config, s: Service, m: MessageId)
    requires m in s.messages && s.messages[m].receives >= cfg.redriveAfter
    ensures NeverRetried(cfg, s, m)
  {
    forall acts | Legal(cfg, s, acts) && OneWorker.LeasesHold(false, cfg, s, acts)
      ensures !Receivable(cfg, Run(cfg, s, acts), m)
    {
      NoReceiveAfterFinal(cfg, s, acts, m);
    }
  }

  /** The handler throws, the job ends, and after the retry delay the message is back. */
  lemma FailureIsRetried(cfg: Config, s: Service, c: ConsumerId, m: MessageId)
    requires InPhase(s, c, m, Running) && OneWorker.AllCovered(false, s) && OneWorker.OneHolder(false, s)
    requires m in s.messages && s.messages[m].receives < cfg.redriveAfter
    ensures !NeverRetried(cfg, s, m)
  {
    assert OneWorker.InHand(false, s, c, m) && OneWorker.Covered(s, c, m);
    var acts := Then(cfg, s, [], Throw(c, m));
    var failing := Run(cfg, s, acts);
    assert failing == WithPhase(s, c, m, Failing);
    acts := Then(cfg, s, acts, Retry(c, m));
    var failed := Run(cfg, s, acts);
    assert failed.messages == s.messages;
    forall b ensures !OneWorker.InHand(false, failed, b, m) {
      assert OneWorker.InHand(false, failed, b, m) ==> OneWorker.InHand(false, s, b, m) && b == c;
    }
    acts := Then(cfg, s, acts, Expire(m));
    assert Receivable(cfg, Run(cfg, s, acts), m);
  }

  /** While leases hold, `isFinalAttempt` is right on every attempt exactly when the two limits are equal. */
  lemma FinalAttemptIff(cfg: Config)
    requires cfg.redriveAfter >= 1 && cfg.maxReceiveCount >= 1
    ensures LeasedFlagIsExact(cfg) <==> cfg.maxReceiveCount == cfg.redriveAfter
  {
    if cfg.maxReceiveCount == cfg.redriveAfter {
      forall acts, c, m |
        Legal(cfg, EMPTY, acts) && OneWorker.LeasesHold(false, cfg, EMPTY, acts) && InPhase(Run(cfg, EMPTY, acts), c, m, Running)
        ensures Flag(cfg, Run(cfg, EMPTY, acts), c, m) <==> NeverRetried(cfg, Run(cfg, EMPTY, acts), m)
      {
        LeasedFlag(cfg, acts, c, m);
      }
    } else if cfg.maxReceiveCount < cfg.redriveAfter {
      var n := cfg.maxReceiveCount;
      var acts := HandlesTimes(cfg, n);
      OneWorker.NoSecondWorker(false, cfg, acts);
      FailureIsRetried(cfg, Handles(n), 0, 0);
      assert InPhase(Run(cfg, EMPTY, acts), 0, 0, Running) && Flag(cfg, Run(cfg, EMPTY, acts), 0, 0);
    } else {
      var acts := HandlesTimes(cfg, cfg.redriveAfter);
      UsedUpIsNotRetried(cfg, Handles(cfg.redriveAfter), 0);
      assert InPhase(Run(cfg, EMPTY, acts), 0, 0, Running) && !Flag(cfg, Run(cfg, EMPTY, acts), 0, 0);
    }
  }

  lemma LeasedFlag(cfg: Config, acts: seq<Action>, c: ConsumerId, m: MessageId)
    requires cfg.maxReceiveCount == cfg.redriveAfter
    requires Legal(cfg, EMPTY, acts) && OneWorker.LeasesHold(false, cfg, EMPTY, acts)
    requires InPhase(Run(cfg, EMPTY, acts), c, m, Running)
    ensures Flag(cfg, Run(cfg, EMPTY, acts), c, m) <==> NeverRetried(cfg, Run(cfg, EMPTY, acts), m)
  {
    var s := Run(cfg, EMPTY, acts);
    OneWorker.NoSecondWorker(false, cfg, acts);
    assert OneWorker.InHand(false, s, c, m) && OneWorker.Covered(s, c, m);
    if Flag(cfg, s, c, m) {
      UsedUpIsNotRetried(cfg, s, m);
    } else {
      FailureIsRetried(cfg, s, c, m);
    }
  }
}
