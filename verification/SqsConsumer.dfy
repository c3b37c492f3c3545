/**
 The SQS consumer loop. First one queue with any number of consumer processes as a system
 of steps: leases that may lapse at any time, deletes that may fail, processes that may
 crash. Then the loop itself as a program over that system.
 */
module SqsConsumer {
  type MessageId = nat
  type ConsumerId = nat

  datatype Exit = Handled | Malformed | Redriven

  datatype Place = Visible | Hidden | Left(exit: Exit)

  datatype Message = Message(wellFormed: bool, receives: nat, place: Place)

  /** A received message goes through these in one process. */
  datatype Phase = Waiting | Running | Succeeded | Failing | Dropping | Releasing | Finished

  /** `receiveCount` is the ApproximateReceiveCount the message came with. */
  datatype Job = Job(receiveCount: nat, wellFormed: bool, phase: Phase)

  datatype Loop = Polling | BackingOff | Received(batch: map<MessageId, Job>) | Working(batch: map<MessageId, Job>) | Stopped

  datatype Consumer = Consumer(stopping: bool, loop: Loop)
  {
    function Jobs(): map<MessageId, Job> {
      if loop.Received? || loop.Working? then loop.batch else map[]
    }
  }

  datatype Start = Start(m: MessageId, receiveCount: nat)

  /**
   `messages` holds every message ever sent. `starts` (every handler start so far) and
   `succeeded` (messages some handler returned normally for) are history.
   */
  datatype Service = Service(
    messages: map<MessageId, Message>,
    consumers: map<ConsumerId, Consumer>,
    starts: seq<Start>,
    succeeded: set<MessageId>)

  /** The queue's redrive policy, and the consumer's own options. */
  datatype Config = Config(redriveAfter: nat, maxReceiveCount: nat, concurrency: int)
  {
    function BatchSize(): (size: nat)
      ensures 1 <= size <= 10 && (1 <= concurrency <= 10 ==> size == concurrency)
    {
      var capped := if concurrency < 10 then concurrency else 10;
      if capped > 1 then capped else 1
    }

    predicate IsFinalAttempt(receiveCount: nat) { receiveCount >= maxReceiveCount }
  }

  datatype Action =
    | Send(m: MessageId, wellFormed: bool)
    | Expire(m: MessageId)
    | Redrive(m: MessageId)
    | Launch(c: ConsumerId)
    | Receive(c: ConsumerId, ms: set<MessageId>)
    | PollFails(c: ConsumerId, ms: set<MessageId>)  // the reply is lost, with the messages it may have leased
    | Wake(c: ConsumerId)
    | Dispatch(c: ConsumerId)
    | Begin(c: ConsumerId, m: MessageId)
    | Return(c: ConsumerId, m: MessageId)
    | Throw(c: ConsumerId, m: MessageId)
    | Delete(c: ConsumerId, m: MessageId, ok: bool)
    | Retry(c: ConsumerId, m: MessageId)
    | Release(c: ConsumerId, m: MessageId, ok: bool)
    | Advance(c: ConsumerId)
    | Stop(c: ConsumerId)
    | Crash(c: ConsumerId)

  const EMPTY := Service(map[], map[], [], {})

  predicate Receivable(cfg: Config, s: Service, m: MessageId) {
    m in s.messages && s.messages[m].place == Visible && s.messages[m].receives < cfg.redriveAfter
  }

  predicate InPhase(s: Service, c: ConsumerId, m: MessageId, phase: Phase) {
    c in s.consumers && s.consumers[c].loop.Working? &&
    m in s.consumers[c].loop.batch && s.consumers[c].loop.batch[m].phase == phase
  }

  predicate AllFinished(jobs: map<MessageId, Job>) {
    forall m | m in jobs :: jobs[m].phase == Finished
  }

  predicate Enabled(cfg: Config, s: Service, a: Action) {
    match a
    case Send(m, _) => m !in s.messages
    case Expire(m) => m in s.messages && s.messages[m].place == Hidden
    case Redrive(m) =>
      m in s.messages && s.messages[m].place == Visible && s.messages[m].receives >= cfg.redriveAfter
    case Launch(c) => c !in s.consumers
    case Receive(c, ms) =>
      c in s.consumers && s.consumers[c].loop.Polling? && |ms| <= cfg.BatchSize() &&
      forall m | m in ms :: Receivable(cfg, s, m)
    case PollFails(c, ms) =>
      c in s.consumers && s.consumers[c].loop.Polling? && |ms| <= cfg.BatchSize() &&
      forall m | m in ms :: Receivable(cfg, s, m)
    case Wake(c) => c in s.consumers && s.consumers[c].loop.BackingOff?
    case Dispatch(c) => c in s.consumers && s.consumers[c].loop.Received?
    case Begin(c, m) => InPhase(s, c, m, Waiting)
    case Return(c, m) => InPhase(s, c, m, Running)
    case Throw(c, m) => InPhase(s, c, m, Running)
    case Delete(c, m, _) => InPhase(s, c, m, Succeeded) || InPhase(s, c, m, Dropping)
    case Retry(c, m) => InPhase(s, c, m, Failing)
    case Release(c, m, _) => InPhase(s, c, m, Releasing)
    case Advance(c) =>
      c in s.consumers && s.consumers[c].loop.Working? && AllFinished(s.consumers[c].loop.batch)
    case Stop(c) => c in s.consumers
    case Crash(c) => c in s.consumers
  }

  function WithLoop(s: Service, c: ConsumerId, loop: Loop): Service
    requires c in s.consumers
  {
    s.(consumers := s.consumers[c := s.consumers[c].(loop := loop)])
  }

  function WithPhase(s: Service, c: ConsumerId, m: MessageId, phase: Phase): Service
    requires c in s.consumers && s.consumers[c].loop.Working? && m in s.consumers[c].loop.batch
  {
    var jobs := s.consumers[c].loop.batch;
    WithLoop(s, c, Working(jobs[m := jobs[m].(phase := phase)]))
  }

  /** The loop's guard. */
  function Again(s: Service, c: ConsumerId): Service
    requires c in s.consumers
  {
    WithLoop(s, c, if s.consumers[c].stopping then Stopped else Polling)
  }

  /** Changing the place of a message that has left the queue does nothing. */
  function Placed(s: Service, m: MessageId, place: Place): Service {
    if m !in s.messages || s.messages[m].place.Left? then s
    else s.(messages := s.messages[m := s.messages[m].(place := place)])
  }

  /** A call with the receipt of receive number `n`: only the latest receive's receipt has any effect. */
  function Moved(s: Service, m: MessageId, n: nat, place: Place): Service {
    if m in s.messages && s.messages[m].receives == n then Placed(s, m, place) else s
  }

  function Leased(messages: map<MessageId, Message>, ms: set<MessageId>): map<MessageId, Message> {
    map m | m in messages ::
      if m in ms then messages[m].(receives := messages[m].receives + 1, place := Hidden) else messages[m]
  }

  function Copies(messages: map<MessageId, Message>, ms: set<MessageId>): map<MessageId, Job>
    requires ms <= messages.Keys
  {
    map m | m in ms :: Job(messages[m].receives + 1, messages[m].wellFormed, Waiting)
  }

  function AllIn(batch: map<MessageId, Job>, phase: Phase): map<MessageId, Job> {
    map m | m in batch :: batch[m].(phase := phase)
  }

  function Next(cfg: Config, s: Service, a: Action): Service
    requires Enabled(cfg, s, a)
  {
    match a
    case Send(m, wellFormed) =>
      s.(messages := s.messages[m := Message(wellFormed, 0, Visible)])
    case Expire(m) => Placed(s, m, Visible)
    case Redrive(m) => Placed(s, m, Left(Redriven))
    case Launch(c) => s.(consumers := s.consumers[c := Consumer(false, Polling)])
    case Receive(c, ms) =>
      WithLoop(s, c, Received(Copies(s.messages, ms))).(messages := Leased(s.messages, ms))
    case PollFails(c, ms) => WithLoop(s, c, BackingOff).(messages := Leased(s.messages, ms))
    case Wake(c) => Again(s, c)
    case Dispatch(c) =>
      WithLoop(s, c, Working(AllIn(s.consumers[c].loop.batch,
                                   if s.consumers[c].stopping then Releasing else Waiting)))
    case Begin(c, m) =>
      var job := s.consumers[c].loop.batch[m];
      if job.wellFormed
      then WithPhase(s, c, m, Running).(starts := s.starts + [Start(m, job.receiveCount)])
      else WithPhase(s, c, m, Dropping)
    case Return(c, m) => WithPhase(s, c, m, Succeeded).(succeeded := s.succeeded + {m})
    case Throw(c, m) => WithPhase(s, c, m, Failing)
    case Delete(c, m, ok) =>
      var job := s.consumers[c].loop.batch[m];
      if job.phase == Dropping then
        var t := WithPhase(s, c, m, Finished);
        if ok then Moved(t, m, job.receiveCount, Left(Malformed)) else t
      else if ok then Moved(WithPhase(s, c, m, Finished), m, job.receiveCount, Left(Handled))
      else WithPhase(s, c, m, Failing)
    case Retry(c, m) => WithPhase(s, c, m, Finished)
    case Release(c, m, ok) =>
      var t := WithPhase(s, c, m, Finished);
      if ok then Moved(t, m, s.consumers[c].loop.batch[m].receiveCount, Visible) else t
    case Advance(c) => Again(s, c)
    case Stop(c) => s.(consumers := s.consumers[c := s.consumers[c].(stopping := true)])
    case Crash(c) => s.(consumers := s.consumers - {c})
  }

  /** The action ends the handler that process `c` runs on `m`. */
  predicate EndsHandler(a: Action, c: ConsumerId, m: MessageId) {
    a == Return(c, m) || a == Throw(c, m) || a == Crash(c)
  }

  lemma KeepsRunning(cfg: Config, s: Service, a: Action, c: ConsumerId, m: MessageId)
    requires Enabled(cfg, s, a) && InPhase(s, c, m, Running) && !EndsHandler(a, c, m)
    ensures InPhase(Next(cfg, s, a), c, m, Running)
    ensures Next(cfg, s, a).consumers[c].loop.batch[m] == s.consumers[c].loop.batch[m]
  {
    assert !AllFinished(s.consumers[c].loop.batch);
  }

  predicate Legal(cfg: Config, s: Service, acts: seq<Action>)
    decreases |acts|, 0
  {
    acts == [] ||
    (Legal(cfg, s, acts[..|acts| - 1]) &&
     Enabled(cfg, Run(cfg, s, acts[..|acts| - 1]), acts[|acts| - 1]))
  }

  function Run(cfg: Config, s: Service, acts: seq<Action>): Service
    requires Legal(cfg, s, acts)
    decreases |acts|, 1
  {
    if acts == [] then s else Next(cfg, Run(cfg, s, acts[..|acts| - 1]), acts[|acts| - 1])
  }

  // ----- The invariant -------------------------------------------------------------------

  /** A message is never received more often than the redrive policy allows, and left for a reason. */
  predicate MessageOk(cfg: Config, s: Service, m: MessageId)
    requires m in s.messages
  {
    var message := s.messages[m];
    && message.receives <= cfg.redriveAfter
    && (message.place == Left(Handled) ==> m in s.succeeded)
    && (message.place == Left(Malformed) ==> !message.wellFormed)
    && (message.place == Left(Redriven) ==> message.receives == cfg.redriveAfter)
  }

  /** A start belongs to a receive of a well-formed message. */
  predicate StartOk(s: Service, start: Start) {
    && start.m in s.messages && s.messages[start.m].wellFormed
    && 1 <= start.receiveCount <= s.messages[start.m].receives
  }

  /** A job belongs to a receive that happened, has its message's form, and is yet to start or has. */
  predicate JobOk(s: Service, m: MessageId, job: Job) {
    && m in s.messages && 1 <= job.receiveCount <= s.messages[m].receives
    && job.wellFormed == s.messages[m].wellFormed
    && (job.phase == Waiting ==> Start(m, job.receiveCount) !in s.starts)
    && (job.phase == Succeeded ==> m in s.succeeded)
    && (job.phase == Dropping ==> !job.wellFormed)
  }

  ghost predicate NoDuplicates(starts: seq<Start>) {
    forall i, j | 0 <= i < j < |starts| :: starts[i] != starts[j]
  }

  predicate Holds(s: Service, c: ConsumerId, m: MessageId) {
    c in s.consumers && m in s.consumers[c].Jobs()
  }

  function Held(s: Service, c: ConsumerId, m: MessageId): Job
    requires Holds(s, c, m)
  {
    s.consumers[c].Jobs()[m]
  }

  ghost predicate Inv(cfg: Config, s: Service) {
    && (forall m | m in s.messages :: MessageOk(cfg, s, m))
    && (forall start | start in s.starts :: StartOk(s, start))
    && NoDuplicates(s.starts)
    && (forall c, m | Holds(s, c, m) :: JobOk(s, m, Held(s, c, m)))
    && (forall b, c, m | Holds(s, b, m) && Holds(s, c, m) &&
          Held(s, b, m).receiveCount == Held(s, c, m).receiveCount :: b == c)
  }

  /** A process may take up jobs it already held, in any phase that suits them. */
  lemma LoopKeepsInv(cfg: Config, s: Service, c: ConsumerId, consumer: Consumer)
    requires Inv(cfg, s)
    requires forall m | m in consumer.Jobs() ::
               Holds(s, c, m) && consumer.Jobs()[m].receiveCount == Held(s, c, m).receiveCount &&
               JobOk(s, m, consumer.Jobs()[m])
    ensures Inv(cfg, s.(consumers := s.consumers[c := consumer]))
  {
    var t := s.(consumers := s.consumers[c := consumer]);
    forall b, m | Holds(t, b, m)
      ensures JobOk(t, m, Held(t, b, m)) && Holds(s, b, m) &&
              Held(s, b, m).receiveCount == Held(t, b, m).receiveCount
    {
      assert b != c ==> JobOk(s, m, Held(s, b, m));
    }
    forall m | m in t.messages ensures MessageOk(cfg, t, m) { assert MessageOk(cfg, s, m); }
    forall start | start in t.starts ensures StartOk(t, start) { assert StartOk(s, start); }
  }

  lemma PlaceKeepsInv(cfg: Config, s: Service, m: MessageId, place: Place)
    requires Inv(cfg, s) && m in s.messages
    requires place == Left(Handled) ==> m in s.succeeded
    requires place == Left(Malformed) ==> !s.messages[m].wellFormed
    requires place == Left(Redriven) ==> s.messages[m].receives == cfg.redriveAfter
    ensures Inv(cfg, Placed(s, m, place))
  {
    var t := Placed(s, m, place);
    forall k | k in t.messages ensures MessageOk(cfg, t, k) { assert MessageOk(cfg, s, k); }
    forall start | start in t.starts ensures StartOk(t, start) { assert StartOk(s, start); }
    forall b, k | Holds(t, b, k) ensures JobOk(t, k, Held(t, b, k)) {
      assert Holds(s, b, k) && JobOk(s, k, Held(s, b, k));
    }
    forall b, k | Holds(t, b, k) ensures Holds(s, b, k) && Held(t, b, k) == Held(s, b, k) {}
  }

  lemma ReceiveKeepsInv(cfg: Config, s: Service, c: ConsumerId, ms: set<MessageId>)
    requires Inv(cfg, s) && Enabled(cfg, s, Receive(c, ms))
    ensures Inv(cfg, Next(cfg, s, Receive(c, ms)))
  {
    var t := Next(cfg, s, Receive(c, ms));
    assert forall m | m in ms :: Receivable(cfg, s, m);
    forall m | m in t.messages ensures MessageOk(cfg, t, m) { assert MessageOk(cfg, s, m); }
    forall start | start in t.starts ensures StartOk(t, start) { assert StartOk(s, start); }
    forall b, m | Holds(t, b, m)
      ensures JobOk(t, m, Held(t, b, m))
      ensures b != c ==> Holds(s, b, m) && Held(s, b, m) == Held(t, b, m)
    {
      if b != c {
        assert Holds(s, b, m) && JobOk(s, m, Held(s, b, m));
      } else {
        var start := Start(m, s.messages[m].receives + 1);
        assert start in s.starts ==> StartOk(s, start);
      }
    }
    forall b, m | b != c && Holds(t, b, m) && Holds(t, c, m)
      ensures Held(t, b, m).receiveCount != Held(t, c, m).receiveCount
    {
      assert JobOk(s, m, Held(s, b, m));
    }
    forall a, b, m | Holds(t, a, m) && Holds(t, b, m) &&
                     Held(t, a, m).receiveCount == Held(t, b, m).receiveCount ensures a == b
    {
      assert a != c && b != c ==> Holds(s, a, m) && Holds(s, b, m);
    }
  }

  lemma BeginKeepsInv(cfg: Config, s: Service, c: ConsumerId, m: MessageId)
    requires Inv(cfg, s) && InPhase(s, c, m, Waiting) && Held(s, c, m).wellFormed
    ensures Inv(cfg, Next(cfg, s, Begin(c, m)))
  {
    var job := Held(s, c, m);
    assert Holds(s, c, m) && JobOk(s, m, job);
    var u := WithPhase(s, c, m, Running);
    PhaseKeepsInv(cfg, s, c, m, Running);
    var t := Next(cfg, s, Begin(c, m));
    forall k | k in t.messages ensures MessageOk(cfg, t, k) { assert MessageOk(cfg, u, k); }
    forall start | start in t.starts ensures StartOk(t, start) {
      assert start in s.starts ==> StartOk(s, start);
    }
    assert Holds(t, c, m) && Holds(u, c, m);
    forall b, k | Holds(t, b, k) ensures JobOk(t, k, Held(t, b, k)) {
      assert Holds(u, b, k) && JobOk(u, k, Held(u, b, k));
      if k == m && b != c {
        assert Held(u, b, m).receiveCount != Held(u, c, m).receiveCount;
      }
    }
    forall a, b, k | Holds(t, a, k) && Holds(t, b, k) &&
                     Held(t, a, k).receiveCount == Held(t, b, k).receiveCount ensures a == b
    {
      assert Holds(u, a, k) && Holds(u, b, k);
    }
  }

  lemma ReturnKeepsInv(cfg: Config, s: Service, m: MessageId)
    requires Inv(cfg, s)
    ensures Inv(cfg, s.(succeeded := s.succeeded + {m}))
  {
    var t := s.(succeeded := s.succeeded + {m});
    forall k | k in t.messages ensures MessageOk(cfg, t, k) { assert MessageOk(cfg, s, k); }
    forall start | start in t.starts ensures StartOk(t, start) { assert StartOk(s, start); }
    forall b, k | Holds(t, b, k) ensures Holds(s, b, k) && JobOk(t, k, Held(t, b, k)) {
      assert Holds(s, b, k) && JobOk(s, k, Held(s, b, k));
    }
  }

  lemma PhaseKeepsInv(cfg: Config, s: Service, c: ConsumerId, m: MessageId, phase: Phase)
    requires Inv(cfg, s) && c in s.consumers && s.consumers[c].loop.Working? && m in s.consumers[c].loop.batch
    requires phase != Waiting
    requires phase == Succeeded ==> m in s.succeeded
    requires phase == Dropping ==> !Held(s, c, m).wellFormed
    ensures Inv(cfg, WithPhase(s, c, m, phase))
  {
    var jobs := s.consumers[c].loop.batch;
    var consumer := s.consumers[c].(loop := Working(jobs[m := jobs[m].(phase := phase)]));
    forall k | k in consumer.Jobs()
      ensures Holds(s, c, k) && JobOk(s, k, consumer.Jobs()[k])
      ensures consumer.Jobs()[k].receiveCount == Held(s, c, k).receiveCount
    {
      assert Holds(s, c, k) && JobOk(s, k, Held(s, c, k));
    }
    LoopKeepsInv(cfg, s, c, consumer);
  }

  /** Deleting keeps the invariant: only a handled or a malformed message is deleted. */
  lemma DeleteKeepsInv(cfg: Config, s: Service, c: ConsumerId, m: MessageId, ok: bool)
    requires Inv(cfg, s) && Enabled(cfg, s, Delete(c, m, ok))
    ensures Inv(cfg, Next(cfg, s, Delete(c, m, ok)))
  {
    assert Holds(s, c, m) && JobOk(s, m, Held(s, c, m));
    if ok {
      PhaseKeepsInv(cfg, s, c, m, Finished);
      PlaceKeepsInv(cfg, WithPhase(s, c, m, Finished), m,
                    Left(if Held(s, c, m).phase == Dropping then Malformed else Handled));
    } else {
      PhaseKeepsInv(cfg, s, c, m, if Held(s, c, m).phase == Dropping then Finished else Failing);
    }
  }

  lemma DispatchKeepsInv(cfg: Config, s: Service, c: ConsumerId)
    requires Inv(cfg, s) && Enabled(cfg, s, Dispatch(c))
    requires forall m | m in s.consumers[c].loop.batch :: s.consumers[c].loop.batch[m].phase == Waiting
    ensures Inv(cfg, Next(cfg, s, Dispatch(c)))
  {
    var consumer := Next(cfg, s, Dispatch(c)).consumers[c];
    forall m | m in consumer.Jobs()
      ensures Holds(s, c, m) && JobOk(s, m, consumer.Jobs()[m])
      ensures consumer.Jobs()[m].receiveCount == Held(s, c, m).receiveCount
    {
      assert Holds(s, c, m) && JobOk(s, m, Held(s, c, m));
    }
    LoopKeepsInv(cfg, s, c, consumer);
  }

  lemma ProcessKeepsInv(cfg: Config, s: Service, a: Action)
    requires a.Launch? || a.Wake? || a.Advance? || a.Stop?
    requires Inv(cfg, s) && Enabled(cfg, s, a)
    ensures Inv(cfg, Next(cfg, s, a))
  {
    var consumer := Next(cfg, s, a).consumers[a.c];
    forall m | m in consumer.Jobs() ensures Holds(s, a.c, m) && JobOk(s, m, consumer.Jobs()[m]) {
      assert JobOk(s, m, Held(s, a.c, m));
    }
    LoopKeepsInv(cfg, s, a.c, consumer);
  }

  /** Messages leased by a receive whose reply was lost have no job. */
  lemma PollFailsKeepsInv(cfg: Config, s: Service, c: ConsumerId, ms: set<MessageId>)
    requires Inv(cfg, s) && Enabled(cfg, s, PollFails(c, ms))
    ensures Inv(cfg, Next(cfg, s, PollFails(c, ms)))
  {
    var t := Next(cfg, s, PollFails(c, ms));
    assert forall m | m in ms :: Receivable(cfg, s, m);
    forall m | m in t.messages ensures MessageOk(cfg, t, m) { assert MessageOk(cfg, s, m); }
    forall start | start in t.starts ensures StartOk(t, start) { assert StartOk(s, start); }
    forall b, m | Holds(t, b, m) ensures Holds(s, b, m) && Held(t, b, m) == Held(s, b, m) && JobOk(t, m, Held(t, b, m)) {
      assert Holds(s, b, m) && JobOk(s, m, Held(s, b, m));
    }
  }

  lemma SendAndCrashKeepInv(cfg: Config, s: Service, a: Action)
    requires a.Send? || a.Crash?
    requires Inv(cfg, s) && Enabled(cfg, s, a)
    ensures Inv(cfg, Next(cfg, s, a))
  {
    var t := Next(cfg, s, a);
    forall k | k in t.messages ensures MessageOk(cfg, t, k) { assert k in s.messages ==> MessageOk(cfg, s, k); }
    forall start | start in t.starts ensures StartOk(t, start) { assert StartOk(s, start); }
    forall b, k | Holds(t, b, k) ensures Holds(s, b, k) && JobOk(t, k, Held(t, b, k)) {
      assert Holds(s, b, k) && JobOk(s, k, Held(s, b, k));
    }
  }

  lemma StepKeepsWaiting(cfg: Config, s: Service, a: Action)
    requires BatchesWait(s) && Enabled(cfg, s, a)
    ensures BatchesWait(Next(cfg, s, a))
  {}

  lemma StepKeepsInv(cfg: Config, s: Service, a: Action)
    requires Inv(cfg, s) && BatchesWait(s) && Enabled(cfg, s, a)
    ensures Inv(cfg, Next(cfg, s, a))
  {
    match a
    case Send(m, _) => SendAndCrashKeepInv(cfg, s, a);
    case Expire(m) => PlaceKeepsInv(cfg, s, m, Visible);
    case Redrive(m) =>
      assert MessageOk(cfg, s, m);
      PlaceKeepsInv(cfg, s, m, Left(Redriven));
    case Receive(c, ms) => ReceiveKeepsInv(cfg, s, c, ms);
    case PollFails(c, ms) => PollFailsKeepsInv(cfg, s, c, ms);
    case Dispatch(c) => DispatchKeepsInv(cfg, s, c);
    case Begin(c, m) =>
      if Held(s, c, m).wellFormed { BeginKeepsInv(cfg, s, c, m); } else { PhaseKeepsInv(cfg, s, c, m, Dropping); }
    case Return(c, m) =>
      ReturnKeepsInv(cfg, s, m);
      PhaseKeepsInv(cfg, s.(succeeded := s.succeeded + {m}), c, m, Succeeded);
    case Throw(c, m) => PhaseKeepsInv(cfg, s, c, m, Failing);
    case Delete(c, m, ok) => DeleteKeepsInv(cfg, s, c, m, ok);
    case Retry(c, m) => PhaseKeepsInv(cfg, s, c, m, Finished);
    case Release(c, m, ok) =>
      assert Holds(s, c, m) && JobOk(s, m, Held(s, c, m));
      PhaseKeepsInv(cfg, s, c, m, Finished);
      if ok { PlaceKeepsInv(cfg, WithPhase(s, c, m, Finished), m, Visible); }
    case Crash(c) => SendAndCrashKeepInv(cfg, s, a);
    case _ => ProcessKeepsInv(cfg, s, a);
  }

  /** Nothing happens to a received message before its batch is dispatched. */
  ghost predicate BatchesWait(s: Service) {
    forall c, m | c in s.consumers && s.consumers[c].loop.Received? && m in s.consumers[c].loop.batch ::
      s.consumers[c].loop.batch[m].phase == Waiting
  }

  lemma {:induction false} RunKeepsInv(cfg: Config, acts: seq<Action>)
    requires Legal(cfg, EMPTY, acts)
    ensures Inv(cfg, Run(cfg, EMPTY, acts)) && BatchesWait(Run(cfg, EMPTY, acts))
    decreases |acts|
  {
    if acts != [] {
      RunKeepsInv(cfg, acts[..|acts| - 1]);
      StepKeepsInv(cfg, Run(cfg, EMPTY, acts[..|acts| - 1]), acts[|acts| - 1]);
      StepKeepsWaiting(cfg, Run(cfg, EMPTY, acts[..|acts| - 1]), acts[|acts| - 1]);
    }
  }

  // ----- What every run keeps ------------------------------------------------------------

  function StartsOf(starts: seq<Start>, m: MessageId): nat {
    if starts == [] then 0
    else StartsOf(starts[..|starts| - 1], m) + if starts[|starts| - 1].m == m then 1 else 0
  }

  function Counts(starts: seq<Start>, m: MessageId): set<nat> {
    set start | start in starts && start.m == m :: start.receiveCount
  }

  lemma {:induction false} DistinctStarts(starts: seq<Start>, m: MessageId)
    requires NoDuplicates(starts)
    ensures StartsOf(starts, m) == |Counts(starts, m)|
  {
    if starts == [] {
      assert Counts(starts, m) == {};
    } else {
      var front, last := starts[..|starts| - 1], starts[|starts| - 1];
      DistinctStarts(front, m);
      assert starts == front + [last];
      if last.m == m {
        assert Counts(starts, m) == Counts(front, m) + {last.receiveCount};
        forall i | 0 <= i < |front| ensures front[i] != last {
          assert starts[i] != starts[|starts| - 1];
        }
        assert forall start | start in front && start.m == m :: start.receiveCount != last.receiveCount;
      } else {
        assert Counts(starts, m) == Counts(front, m);
      }
    }
  }

  lemma {:induction false} SmallSet(s: set<nat>, max: nat)
    requires forall n | n in s :: 1 <= n <= max
    ensures |s| <= max
  {
    if max == 0 {
      assert s == {};
    } else {
      SmallSet(s - {max}, max - 1);
      assert max in s ==> |s - {max}| == |s| - 1;
      assert max !in s ==> s - {max} == s;
    }
  }

  /** A message's handler starts at most once per receive, so at most `redriveAfter` times. */
  lemma StartsBounded(cfg: Config, acts: seq<Action>, m: MessageId)
    requires Legal(cfg, EMPTY, acts)
    ensures StartsOf(Run(cfg, EMPTY, acts).starts, m) <= cfg.redriveAfter
  {
    RunKeepsInv(cfg, acts);
    var s := Run(cfg, EMPTY, acts);
    DistinctStarts(s.starts, m);
    forall n | n in Counts(s.starts, m) ensures 1 <= n <= cfg.redriveAfter {
      assert StartOk(s, Start(m, n)) && MessageOk(cfg, s, m);
    }
    SmallSet(Counts(s.starts, m), cfg.redriveAfter);
  }

  /** Whatever was sent is still there, or left handled, malformed, or used up. */
  ghost predicate Accounted(cfg: Config, s: Service, m: MessageId) {
    m in s.messages &&
    match s.messages[m].place
    case Visible => true
    case Hidden => true
    case Left(Handled) => m in s.succeeded
    case Left(Malformed) => !s.messages[m].wellFormed
    case Left(Redriven) => s.messages[m].receives == cfg.redriveAfter
  }

  lemma SentStep(cfg: Config, s: Service, a: Action, m: MessageId)
    requires Enabled(cfg, s, a) && m in s.messages
    ensures m in Next(cfg, s, a).messages && Next(cfg, s, a).messages[m].wellFormed == s.messages[m].wellFormed
  {}

  lemma {:induction false} Conservation(cfg: Config, acts: seq<Action>, m: MessageId, wellFormed: bool)
    requires Legal(cfg, EMPTY, acts) && Send(m, wellFormed) in acts
    ensures Accounted(cfg, Run(cfg, EMPTY, acts), m)
    ensures Run(cfg, EMPTY, acts).messages[m].wellFormed == wellFormed
    decreases |acts|
  {
    RunKeepsInv(cfg, acts);
    var s, front, a := Run(cfg, EMPTY, acts), acts[..|acts| - 1], acts[|acts| - 1];
    if a != Send(m, wellFormed) {
      assert acts == front + [a];
      Conservation(cfg, front, m, wellFormed);
      SentStep(cfg, Run(cfg, EMPTY, front), a, m);
    }
    assert MessageOk(cfg, s, m);
  }

  lemma LeftStep(cfg: Config, s: Service, a: Action, m: MessageId)
    requires Enabled(cfg, s, a) && m in s.messages && s.messages[m].place.Left?
    ensures m in Next(cfg, s, a).messages && Next(cfg, s, a).messages[m] == s.messages[m]
  {
    assert (a.Receive? || a.PollFails?) && m in a.ms ==> Receivable(cfg, s, m);
  }

  /** A message that left the queue never comes back. */
  lemma {:induction false} LeftForGood(cfg: Config, s: Service, acts: seq<Action>, m: MessageId)
    requires Legal(cfg, s, acts) && m in s.messages && s.messages[m].place.Left?
    ensures m in Run(cfg, s, acts).messages && Run(cfg, s, acts).messages[m] == s.messages[m]
    decreases |acts|
  {
    if acts != [] {
      LeftForGood(cfg, s, acts[..|acts| - 1], m);
      LeftStep(cfg, Run(cfg, s, acts[..|acts| - 1]), acts[|acts| - 1], m);
    }
  }

  /** Shutting down, with nothing in hand that could still start. */
  ghost predicate Quiet(s: Service, c: ConsumerId) {
    c in s.consumers ==>
      s.consumers[c].stopping &&
      (s.consumers[c].loop.Working? ==>
         forall m | m in s.consumers[c].loop.batch ::
           s.consumers[c].loop.batch[m].phase in {Releasing, Finished})
  }

  lemma QuietStep(cfg: Config, s: Service, a: Action, c: ConsumerId)
    requires Enabled(cfg, s, a) && c in s.consumers && Quiet(s, c) && a != Crash(c)
    ensures c in Next(cfg, s, a).consumers && Quiet(Next(cfg, s, a), c)
    ensures !(a.Begin? && a.c == c)
  {}

  /**
   From the moment `stop()` is called while the process is polling, backing off, or holding
   a batch it has not dispatched, no run of anything starts a handler there: what it then
   receives is only handed back.
   */
  lemma {:induction false} StoppingStartsNothing(cfg: Config, s: Service, acts: seq<Action>, c: ConsumerId)
    requires Legal(cfg, s, acts) && c in s.consumers && Quiet(s, c)
    requires forall i | 0 <= i < |acts| :: acts[i] != Crash(c)
    ensures Quiet(Run(cfg, s, acts), c) && c in Run(cfg, s, acts).consumers
    ensures forall i | 0 <= i < |acts| :: !(acts[i].Begin? && acts[i].c == c)
    decreases |acts|
  {
    if acts != [] {
      var front, a := acts[..|acts| - 1], acts[|acts| - 1];
      assert forall i | 0 <= i < |front| :: front[i] == acts[i];
      StoppingStartsNothing(cfg, s, front, c);
      QuietStep(cfg, Run(cfg, s, front), a, c);
    }
  }

  lemma StoppedStep(cfg: Config, s: Service, a: Action, c: ConsumerId)
    requires Enabled(cfg, s, a) && c in s.consumers && s.consumers[c].loop.Stopped? && a != Crash(c)
    ensures c in Next(cfg, s, a).consumers && Next(cfg, s, a).consumers[c].loop.Stopped?
  {}

  /** Once `stop()` has resolved the process runs no handler, and never leaves that state. */
  lemma {:induction false} StoppedForGood(cfg: Config, s: Service, acts: seq<Action>, c: ConsumerId)
    requires Legal(cfg, s, acts) && c in s.consumers && s.consumers[c].loop.Stopped?
    requires forall i | 0 <= i < |acts| :: acts[i] != Crash(c)
    ensures c in Run(cfg, s, acts).consumers && Run(cfg, s, acts).consumers[c].loop.Stopped?
    ensures Run(cfg, s, acts).consumers[c].Jobs() == map[]
    decreases |acts|
  {
    if acts != [] {
      var front := acts[..|acts| - 1];
      assert forall i | 0 <= i < |front| :: front[i] == acts[i];
      StoppedForGood(cfg, s, front, c);
      StoppedStep(cfg, Run(cfg, s, front), acts[|acts| - 1], c);
    }
  }

  /** With `n` receives behind it, the queue moves a message to the dead-letter queue next. */
  predicate GoesToDlq(cfg: Config, n: nat) {
    n >= cfg.redriveAfter
  }

  lemma UsedUpStep(cfg: Config, s: Service, a: Action, m: MessageId)
    requires Enabled(cfg, s, a) && m in s.messages && GoesToDlq(cfg, s.messages[m].receives)
    ensures m in Next(cfg, s, a).messages && Next(cfg, s, a).messages[m].receives == s.messages[m].receives
  {
    assert (a.Receive? || a.PollFails?) && m in a.ms ==> Receivable(cfg, s, m);
  }

  /**
   With `redriveAfter` receives behind it a message is never received again in any run.
   */
  lemma {:induction false} NoReceiveAfterFinal(cfg: Config, s: Service, acts: seq<Action>, m: MessageId)
    requires Legal(cfg, s, acts) && m in s.messages && GoesToDlq(cfg, s.messages[m].receives)
    ensures m in Run(cfg, s, acts).messages && Run(cfg, s, acts).messages[m].receives == s.messages[m].receives
    ensures !Receivable(cfg, Run(cfg, s, acts), m)
    decreases |acts|
  {
    if acts != [] {
      var front, a := acts[..|acts| - 1], acts[|acts| - 1];
      NoReceiveAfterFinal(cfg, s, front, m);
      UsedUpStep(cfg, Run(cfg, s, front), a, m);
    }
  }

  /** What the service may do with a message by itself, told from the message. */
  lemma QueueMeaning(cfg: Config, s: Service, m: MessageId)
    requires m in s.messages
    ensures
      var message := s.messages[m];
      var used := message.receives >= cfg.redriveAfter;
      && (Enabled(cfg, s, Expire(m)) <==> message.place.Hidden?)
      && (message.place.Hidden? ==>
            Next(cfg, s, Expire(m)) == s.(messages := s.messages[m := message.(place := Visible)]))
      && (Enabled(cfg, s, Redrive(m)) <==> message.place.Visible? && used)
      && (message.place.Visible? && used ==>
            Next(cfg, s, Redrive(m)) == s.(messages := s.messages[m := message.(place := Left(Redriven))]))
      && (Receivable(cfg, s, m) <==> message.place.Visible? && !used)
  {}

  // ----- The loop ------------------------------------------------------------------------

  /** How one job goes: whether the handler returns, and whether the delete call works. */
  datatype JobScript = JobScript(handlerReturns: bool, callWorks: bool)

  /** One poll: it fails, or not; either way the service picks from the messages it would like to hand out. */
  datatype Poll = Fails(wanted: set<MessageId>) | Delivers(wanted: set<MessageId>, scripts: MessageId -> JobScript)

  /** When `stop()` is called: during poll number `poll`, or while that poll's jobs run. */
  datatype StopPoint = StopPoint(poll: nat, duringJobs: bool)

  /** The whole of one job: what it leaves behind once `runOne` has come back. */
  function RanOne(s: Service, c: ConsumerId, m: MessageId, script: JobScript): Service
    requires InPhase(s, c, m, Waiting)
  {
    var job, t := Held(s, c, m), WithPhase(s, c, m, Finished);
    if !job.wellFormed then
      if script.callWorks then Moved(t, m, job.receiveCount, Left(Malformed)) else t
    else
      var u := t.(starts := s.starts + [Start(m, job.receiveCount)],
                  succeeded := s.succeeded + if script.handlerReturns then {m} else {});
      if script.handlerReturns && script.callWorks then Moved(u, m, job.receiveCount, Left(Handled)) else u
  }

  /** Where a message of a dispatched batch is once its job is over, if it was not received again. */
  function Ending(message: Message, job: Job, phase: Phase, script: JobScript): Message {
    if message.place.Left? || !script.callWorks || job.receiveCount != message.receives then message
    else if phase == Releasing then message.(place := Visible)
    else if !job.wellFormed then message.(place := Left(Malformed))
    else if script.handlerReturns then message.(place := Left(Handled))
    else message
  }

  /** The messages once the jobs in `done` are over. */
  function Ended(
    messages: map<MessageId, Message>, batch: map<MessageId, Job>, done: set<MessageId>, phase: Phase,
    scripts: MessageId -> JobScript): map<MessageId, Message>
  {
    map m | m in messages ::
      if m in done && m in batch then Ending(messages[m], batch[m], phase, scripts(m)) else messages[m]
  }

  /** A job that is run, not handed back or dropped. */
  predicate Runs(batch: map<MessageId, Job>, m: MessageId, phase: Phase) {
    phase == Waiting && m in batch && batch[m].wellFormed
  }

  function StartsIn(batch: map<MessageId, Job>, done: set<MessageId>, phase: Phase): set<Start> {
    set m | m in done && Runs(batch, m, phase) :: Start(m, batch[m].receiveCount)
  }

  function SuccessesIn(
    batch: map<MessageId, Job>, done: set<MessageId>, phase: Phase, scripts: MessageId -> JobScript): set<MessageId>
  {
    set m | m in done && Runs(batch, m, phase) && scripts(m).handlerReturns
  }

  /** `u` is `s` after the jobs in `done`: what they did to messages, starts and successes. */
  ghost predicate JobsDone(
    s: Service, u: Service, batch: map<MessageId, Job>, done: set<MessageId>, phase: Phase,
    scripts: MessageId -> JobScript)
  {
    && u.messages == Ended(s.messages, batch, done, phase, scripts)
    && s.starts <= u.starts && (phase == Releasing ==> u.starts == s.starts)
    && (forall x :: x in u.starts <==> x in s.starts || x in StartsIn(batch, done, phase))
    && u.succeeded == s.succeeded + SuccessesIn(batch, done, phase, scripts)
  }

  lemma JobsDoneNone(s: Service, batch: map<MessageId, Job>, phase: Phase, scripts: MessageId -> JobScript)
    ensures JobsDone(s, s, batch, {}, phase, scripts)
  {
    assert Ended(s.messages, batch, {}, phase, scripts) == s.messages;
  }

  /** One more job. */
  lemma JobsDoneOne(
    s: Service, t: Service, u: Service, batch: map<MessageId, Job>, done: set<MessageId>, m: MessageId, phase: Phase,
    scripts: MessageId -> JobScript)
    requires JobsDone(s, t, batch, done, phase, scripts) && m !in done && m in batch && m in s.messages
    requires u.messages == t.messages[m := Ending(s.messages[m], batch[m], phase, scripts(m))]
    requires u.starts == t.starts + if Runs(batch, m, phase) then [Start(m, batch[m].receiveCount)] else []
    requires u.succeeded == t.succeeded + if Runs(batch, m, phase) && scripts(m).handlerReturns then {m} else {}
    ensures JobsDone(s, u, batch, done + {m}, phase, scripts)
  {
    assert u.messages == Ended(s.messages, batch, done + {m}, phase, scripts);
    forall x ensures x in StartsIn(batch, done + {m}, phase) <==>
      x in StartsIn(batch, done, phase) || (Runs(batch, m, phase) && x == Start(m, batch[m].receiveCount))
    {
      if Runs(batch, m, phase) && x == Start(m, batch[m].receiveCount) {
        assert m in done + {m};
      }
    }
    assert SuccessesIn(batch, done + {m}, phase, scripts) ==
      SuccessesIn(batch, done, phase, scripts) + if Runs(batch, m, phase) && scripts(m).handlerReturns then {m} else {};
  }

  class SqsClient {
    const cfg: Config
    var svc: Service

    ghost predicate Valid()
      reads this
    {
      Inv(cfg, svc) && BatchesWait(svc)
    }

    constructor (cfg: Config)
      ensures Valid() && this.cfg == cfg && svc == EMPTY
    {
      this.cfg, svc := cfg, EMPTY;
    }

    method Do(a: Action)
      requires Valid() && Enabled(cfg, svc, a)
      modifies this
      ensures Valid() && svc == Next(cfg, old(svc), a)
    {
      StepKeepsInv(cfg, svc, a);
      StepKeepsWaiting(cfg, svc, a);
      svc := Next(cfg, svc, a);
    }

    method RunOne(c: ConsumerId, m: MessageId, script: JobScript)
      requires Valid() && InPhase(svc, c, m, Waiting)
      modifies this
      ensures Valid() && svc == RanOne(old(svc), c, m, script)
    {
      ghost var s := svc;
      var job := Held(svc, c, m);
      Do(Begin(c, m));
      if job.wellFormed {
        ghost var starts := s.starts + [Start(m, job.receiveCount)];
        assert svc == During(s, c, m, Running, starts, s.succeeded);
        Handle(c, m, script, s, starts);
      } else {
        assert svc == During(s, c, m, Dropping, s.starts, s.succeeded);
        PhaseAgain(s, c, m, Dropping, Finished, s.starts, s.succeeded);
        Do(Delete(c, m, script.callWorks));
      }
    }

    /** The `try` and `catch` around the handler. */
    method Handle(c: ConsumerId, m: MessageId, script: JobScript, ghost s: Service, ghost starts: seq<Start>)
      requires c in s.consumers && s.consumers[c].loop.Working? && m in s.consumers[c].loop.batch
      requires Valid() && svc == During(s, c, m, Running, starts, s.succeeded)
      modifies this
      ensures Valid()
      ensures
        var done := During(s, c, m, Finished, starts, s.succeeded + if script.handlerReturns then {m} else {});
        svc == if script.handlerReturns && script.callWorks
               then Moved(done, m, s.consumers[c].loop.batch[m].receiveCount, Left(Handled)) else done
    {
      if script.handlerReturns {
        PhaseAgain(s, c, m, Running, Succeeded, starts, s.succeeded);
        Do(Return(c, m));
        ghost var succeeded := s.succeeded + {m};
        assert svc == During(s, c, m, Succeeded, starts, succeeded);
        PhaseAgain(s, c, m, Succeeded, Finished, starts, succeeded);
        PhaseAgain(s, c, m, Succeeded, Failing, starts, succeeded);
        Do(Delete(c, m, script.callWorks));
        if script.callWorks {
          return;
        }
        PhaseAgain(s, c, m, Failing, Finished, starts, succeeded);
      } else {
        PhaseAgain(s, c, m, Running, Failing, starts, s.succeeded);
        Do(Throw(c, m));
        PhaseAgain(s, c, m, Failing, Finished, starts, s.succeeded);
      }
      Do(Retry(c, m));
    }

    /** Finishes every job of a dispatched batch, by running it or by handing it back. */
    method FinishBatch(c: ConsumerId, phase: Phase, scripts: MessageId -> JobScript)
      requires phase == Waiting || phase == Releasing
      requires Valid() && c in svc.consumers && svc.consumers[c].loop.Working?
      requires forall m | m in svc.consumers[c].loop.batch :: svc.consumers[c].loop.batch[m].phase == phase
      modifies this
      ensures Valid()
      ensures
        var batch := old(svc.consumers[c].loop.batch);
        && JobsDone(old(svc), svc, batch, batch.Keys, phase, scripts)
        && svc.consumers == old(svc.consumers)[c := old(svc.consumers[c]).(loop := Working(AllIn(batch, Finished)))]
    {
      ghost var s := svc;
      var batch := svc.consumers[c].loop.batch;
      var todo := batch.Keys;
      assert PartDone(batch, todo) == batch && batch.Keys - todo == {};
      JobsDoneNone(s, batch, phase, scripts);
      while todo != {}
        invariant Valid() && todo <= batch.Keys
        invariant JobsDone(s, svc, batch, batch.Keys - todo, phase, scripts)
        invariant svc.consumers == s.consumers[c := s.consumers[c].(loop := Working(PartDone(batch, todo)))]
        decreases todo
      {
        var m :| m in todo;
        FinishNext(c, m, phase, scripts(m), s, batch, todo, scripts);
        todo := todo - {m};
      }
      assert PartDone(batch, {}) == AllIn(batch, Finished) && batch.Keys - {} == batch.Keys;
    }

    /** One job of the batch, as part of the whole. */
    method FinishNext(
      c: ConsumerId, m: MessageId, phase: Phase, script: JobScript, ghost s: Service, ghost batch: map<MessageId, Job>,
      ghost todo: set<MessageId>, ghost scripts: MessageId -> JobScript)
      requires phase == Waiting || phase == Releasing
      requires Valid() && m in todo && todo <= batch.Keys && script == scripts(m)
      requires c in s.consumers && forall k | k in batch :: batch[k].phase == phase
      requires svc.consumers == s.consumers[c := s.consumers[c].(loop := Working(PartDone(batch, todo)))]
      requires JobsDone(s, svc, batch, batch.Keys - todo, phase, scripts)
      modifies this
      ensures Valid()
      ensures svc.consumers == s.consumers[c := s.consumers[c].(loop := Working(PartDone(batch, todo - {m})))]
      ensures JobsDone(s, svc, batch, batch.Keys - (todo - {m}), phase, scripts)
    {
      ghost var jobs, t := PartDone(batch, todo), svc;
      assert jobs[m := jobs[m].(phase := Finished)] == PartDone(batch, todo - {m});
      assert batch.Keys - todo + {m} == batch.Keys - (todo - {m});
      FinishOne(c, m, phase, script);
      assert t.messages[m] == s.messages[m];
      JobsDoneOne(s, t, svc, batch, batch.Keys - todo, m, phase, scripts);
    }

    method FinishOne(c: ConsumerId, m: MessageId, phase: Phase, script: JobScript)
      requires phase == Waiting || phase == Releasing
      requires Valid() && InPhase(svc, c, m, phase)
      modifies this
      ensures Valid() && svc.consumers == old(WithPhase(svc, c, m, Finished).consumers)
      ensures
        var s, job := old(svc), old(Held(svc, c, m));
        var runs := phase == Waiting && job.wellFormed;
        && m in s.messages
        && svc.messages == s.messages[m := Ending(s.messages[m], job, phase, script)]
        && svc.starts == s.starts + (if runs then [Start(m, job.receiveCount)] else [])
        && svc.succeeded == s.succeeded + if runs && script.handlerReturns then {m} else {}
    {
      ghost var messages := svc.messages;
      assert JobOk(svc, m, Held(svc, c, m)) by {
        assert Holds(svc, c, m);
      }
      assert messages[m := messages[m]] == messages;
      if phase == Waiting {
        RunOne(c, m, script);
      } else {
        Do(Release(c, m, script.callWorks));
      }
    }

    /** One turn of the loop while the process is polling; `ms` is what it received. */
    method PollOnce(c: ConsumerId, poll: Poll, stopDuringPoll: bool, stopDuringJobs: bool) returns (ms: set<MessageId>)
      requires Valid() && c in svc.consumers && svc.consumers[c] == Consumer(false, Polling)
      modifies this
      ensures Valid() && PollDone(cfg, old(svc), svc, poll, ms, stopDuringPoll)
      ensures poll.Delivers? ==> Served(old(svc), svc, ms, poll.scripts, stopDuringPoll)
      ensures
        var stopping := stopDuringPoll || stopDuringJobs;
        svc.consumers == old(svc.consumers)[c := Consumer(stopping, if stopping then Stopped else Polling)]
    {
      ms := {};
      if poll.Fails? {
        ms := FailedPoll(c, poll.wanted, stopDuringPoll || stopDuringJobs);
      } else {
        ghost var s := svc;
        var phase;
        phase, ms := TakeBatch(c, poll.wanted, stopDuringPoll, stopDuringJobs);
        ghost var t := svc;
        assert t.consumers[c].loop.batch.Keys == ms;
        FinishBatch(c, phase, poll.scripts);
        ghost var u := svc;
        Proceed(c);
        BatchServed(s, t, u, svc, ms, phase, poll.scripts);
        PollServes(cfg, s, svc, poll, ms, stopDuringPoll);
        SameConsumers(s.consumers, t.consumers, u.consumers, svc.consumers, c);
      }
    }

    /** Back to the loop's guard, all jobs of the batch being finished. */
    method Proceed(c: ConsumerId)
      requires Valid() && Enabled(cfg, svc, Advance(c))
      modifies this
      ensures Valid() && svc == old(svc).(consumers := svc.consumers)
      ensures
        var stopping := old(svc.consumers[c].stopping);
        svc.consumers == old(svc.consumers)[c := Consumer(stopping, if stopping then Stopped else Polling)]
    {
      Do(Advance(c));
    }

    /** A receive whose reply is lost; `ms` is what it leased all the same. */
    method FailedPoll(c: ConsumerId, wanted: set<MessageId>, stop: bool) returns (ms: set<MessageId>)
      requires Valid() && c in svc.consumers && svc.consumers[c] == Consumer(false, Polling)
      modifies this
      ensures Valid() && HandedOut(cfg, old(svc), wanted, ms)
      ensures svc == old(svc).(messages := Leased(old(svc.messages), ms), consumers := svc.consumers)
      ensures svc.consumers == old(svc.consumers)[c := Consumer(stop, if stop then Stopped else Polling)]
    {
      ms := Deliverable(wanted);
      Do(PollFails(c, ms));
      if stop {
        Do(Stop(c));
      }
      Do(Wake(c));
    }

    /** Receives a batch and decides, by whether `stop()` was called meanwhile, what becomes of it. */
    method TakeBatch(c: ConsumerId, wanted: set<MessageId>, stopDuringPoll: bool, stopDuringJobs: bool)
      returns (phase: Phase, ms: set<MessageId>)
      requires Valid() && c in svc.consumers && svc.consumers[c] == Consumer(false, Polling)
      modifies this
      ensures Valid() && HandedOut(cfg, old(svc), wanted, ms)
      ensures phase == if stopDuringPoll then Releasing else Waiting
      ensures ms <= old(svc.messages).Keys
      ensures svc == old(svc).(
        messages := Leased(old(svc.messages), ms),
        consumers := old(svc.consumers)[c := Consumer(
          stopDuringPoll || stopDuringJobs, Working(AllIn(Copies(old(svc.messages), ms), phase)))])
    {
      if stopDuringPoll {
        Do(Stop(c));
      }
      ms := Deliverable(wanted);
      Do(Receive(c, ms));
      Do(Dispatch(c));
      if !stopDuringPoll && stopDuringJobs {
        Do(Stop(c));
      }
      phase := if stopDuringPoll then Releasing else Waiting;
    }

    /** What the service hands out of the messages it would like to: no more than one batch. */
    method Deliverable(wanted: set<MessageId>) returns (ms: set<MessageId>)
      ensures HandedOut(cfg, svc, wanted, ms)
    {
      ms := {};
      var left := set m | m in wanted && Receivable(cfg, svc, m);
      ghost var all := left;
      while left != {} && |ms| < cfg.BatchSize()
        invariant ms + left == all && ms !! left && |ms| <= cfg.BatchSize()
        decreases left
      {
        var m :| m in left;
        ms, left := ms + {m}, left - {m};
      }
    }

    /** Turn number `i` of the loop. */
    method Turn(c: ConsumerId, polls: nat -> Poll, stop: StopPoint, i: nat, ghost s: Service) returns (ms: set<MessageId>)
      requires Valid() && c in svc.consumers && svc.consumers[c] == Consumer(false, Polling)
      requires i <= stop.poll && Grown(s, svc, polls, stop.poll)
      modifies this
      ensures Valid() && Grown(s, svc, polls, stop.poll) && PolledOnce(cfg, old(svc), svc, polls(i), ms, i, stop)
      ensures i == stop.poll && !stop.duringJobs ==> svc.starts == old(svc.starts)
      ensures
        svc.consumers == old(svc.consumers)[c := if i == stop.poll then Consumer(true, Stopped) else Consumer(false, Polling)]
    {
      ghost var t := svc;
      ms := PollOnce(c, polls(i), i == stop.poll && !stop.duringJobs, i == stop.poll && stop.duringJobs);
      PollGrows(cfg, s, t, svc, polls, stop, i, ms);
    }

    /**
     The consumer's life from `consume()` until `stop()` has resolved. It ends with nothing
     in hand, and a batch that arrives after `stop()` adds no handler start.
     */
    method Consume(c: ConsumerId, polls: nat -> Poll, stop: StopPoint) returns (ghost states: seq<Service>)
      requires Valid() && c !in svc.consumers
      modifies this
      ensures Valid() && Grown(old(svc), svc, polls, stop.poll)
      ensures Polled(cfg, old(svc), states, polls, stop) && |states| == stop.poll + 2 && states[stop.poll + 1] == svc
      ensures svc.consumers == old(svc.consumers)[c := Consumer(true, Stopped)]
      ensures stop.poll == 0 && !stop.duringJobs ==> svc.starts == old(svc.starts)
    {
      ghost var s := svc;
      Do(Launch(c));
      states := [svc];
      var i := 0;
      while !svc.consumers[c].stopping
        invariant Valid() && i <= stop.poll + 1
        invariant Grown(s, svc, polls, stop.poll)
        invariant Polled(cfg, s, states, polls, stop) && |states| == i + 1 && states[i] == svc
        invariant i == 0 || (stop.poll == 0 && !stop.duringJobs) ==> svc.starts == s.starts
        invariant
          svc.consumers == s.consumers[c := if i <= stop.poll then Consumer(false, Polling) else Consumer(true, Stopped)]
        decreases stop.poll + 1 - i
      {
        var ms := Turn(c, polls, stop, i, s);
        OneMorePoll(cfg, s, states, svc, polls, ms, stop);
        states := states + [svc];
        i := i + 1;
      }
    }
  }

  predicate NeverWanted(polls: nat -> Poll, last: nat, m: MessageId) {
    forall i: nat | i <= last :: m !in polls(i).wanted
  }

  /** What any number of polls leave of the past. */
  ghost predicate Grown(s: Service, u: Service, polls: nat -> Poll, last: nat) {
    && s.starts <= u.starts && u.messages.Keys == s.messages.Keys
    && forall m | m in s.messages && NeverWanted(polls, last, m) :: u.messages[m] == s.messages[m]
  }

  lemma PollGrows(
    cfg: Config, s: Service, t: Service, u: Service, polls: nat -> Poll, stop: StopPoint, i: nat, ms: set<MessageId>)
    requires Grown(s, t, polls, stop.poll) && i <= stop.poll
    requires PollDone(cfg, t, u, polls(i), ms, i == stop.poll && !stop.duringJobs)
    ensures Grown(s, u, polls, stop.poll)
    ensures i == stop.poll && !stop.duringJobs ==> u.starts == t.starts
  {
  }

  /** A receive hands out what it may, at most a batch of it, and all of it if that fits. */
  ghost predicate HandedOut(cfg: Config, s: Service, wanted: set<MessageId>, ms: set<MessageId>) {
    && ms <= wanted && |ms| <= cfg.BatchSize() && (forall m | m in ms :: Receivable(cfg, s, m))
    && (|ms| < cfg.BatchSize() ==> ms == set m | m in wanted && Receivable(cfg, s, m))
  }

  /** What one poll does: it hands a batch out and, unless it fails, sees its jobs through. */
  ghost predicate PollDone(cfg: Config, s: Service, u: Service, poll: Poll, ms: set<MessageId>, stopDuringPoll: bool) {
    match poll
    case Fails(wanted) =>
      HandedOut(cfg, s, wanted, ms) && u == s.(messages := Leased(s.messages, ms), consumers := u.consumers)
    case Delivers(wanted, scripts) =>
      && HandedOut(cfg, s, wanted, ms)
      && JobsDone(s.(messages := Leased(s.messages, ms)), u, Copies(s.messages, ms), ms,
                  if stopDuringPoll then Releasing else Waiting, scripts)
  }

  /** Where a received message stands after its job, told from its form and how its calls went. */
  predicate EndsAt(wellFormed: bool, script: JobScript, released: bool, place: Place) {
    if !script.callWorks then place.Hidden?
    else if released then place.Visible?
    else if !wellFormed then place == Left(Malformed)
    else if script.handlerReturns then place == Left(Handled)
    else place.Hidden?
  }

  /** What a delivered batch leaves: its messages received once more, run or handed back; and nothing else. */
  ghost predicate Served(s: Service, u: Service, ms: set<MessageId>, scripts: MessageId -> JobScript, released: bool) {
    ms <= s.messages.Keys && MessagesServed(s, u, ms, scripts, released) && StartsServed(s, u, ms, scripts, released)
  }

  ghost predicate MessagesServed(
    s: Service, u: Service, ms: set<MessageId>, scripts: MessageId -> JobScript, released: bool)
    requires ms <= s.messages.Keys
  {
    && u.messages.Keys == s.messages.Keys
    && (forall m | m in s.messages && m !in ms :: u.messages[m] == s.messages[m])
    && (forall m | m in ms ::
          && u.messages[m].wellFormed == s.messages[m].wellFormed && u.messages[m].receives == s.messages[m].receives + 1
          && EndsAt(s.messages[m].wellFormed, scripts(m), released, u.messages[m].place))
  }

  ghost predicate StartsServed(
    s: Service, u: Service, ms: set<MessageId>, scripts: MessageId -> JobScript, released: bool)
    requires ms <= s.messages.Keys
  {
    var run := if released then {} else set m | m in ms && s.messages[m].wellFormed;
    && s.starts <= u.starts
    && (forall x :: x in u.starts <==>
          x in s.starts || (x.m in run && x.receiveCount == s.messages[x.m].receives + 1))
    && u.succeeded == s.succeeded + set m | m in run && scripts(m).handlerReturns
  }

  lemma MessagesAreServed(cfg: Config, s: Service, u: Service, poll: Poll, ms: set<MessageId>, stopDuringPoll: bool)
    requires poll.Delivers? && PollDone(cfg, s, u, poll, ms, stopDuringPoll) && ms <= s.messages.Keys
    requires forall m | m in ms :: Receivable(cfg, s, m)
    ensures MessagesServed(s, u, ms, poll.scripts, stopDuringPoll)
  {}

  lemma StartsAreServed(cfg: Config, s: Service, u: Service, poll: Poll, ms: set<MessageId>, stopDuringPoll: bool)
    requires poll.Delivers? && PollDone(cfg, s, u, poll, ms, stopDuringPoll) && ms <= s.messages.Keys
    ensures StartsServed(s, u, ms, poll.scripts, stopDuringPoll)
  {
    var phase, copies := if stopDuringPoll then Releasing else Waiting, Copies(s.messages, ms);
    var run := if stopDuringPoll then {} else set m | m in ms && s.messages[m].wellFormed;
    assert forall m :: Runs(copies, m, phase) <==> m in run;
    forall x ensures x in StartsIn(copies, ms, phase) <==> x.m in run && x.receiveCount == s.messages[x.m].receives + 1 {
      if x.m in run { assert copies[x.m].receiveCount == s.messages[x.m].receives + 1; }
    }
    assert SuccessesIn(copies, ms, phase, poll.scripts) == set m | m in run && poll.scripts(m).handlerReturns;
  }

  lemma PollServes(cfg: Config, s: Service, u: Service, poll: Poll, ms: set<MessageId>, stopDuringPoll: bool)
    requires poll.Delivers? && PollDone(cfg, s, u, poll, ms, stopDuringPoll)
    ensures Served(s, u, ms, poll.scripts, stopDuringPoll)
  {
    assert forall m | m in ms :: Receivable(cfg, s, m);
    MessagesAreServed(cfg, s, u, poll, ms, stopDuringPoll);
    StartsAreServed(cfg, s, u, poll, ms, stopDuringPoll);
  }

  /** One poll after the other leads from `s` through `states`. */
  ghost predicate Polled(cfg: Config, s: Service, states: seq<Service>, polls: nat -> Poll, stop: StopPoint) {
    && states != [] && states[0] == s.(consumers := states[0].consumers)
    && forall k | 0 <= k < |states| - 1 :: Polls(cfg, states, polls, stop, k)
  }

  ghost predicate Polls(cfg: Config, states: seq<Service>, polls: nat -> Poll, stop: StopPoint, k: nat)
    requires k < |states| - 1
  {
    var s, u := states[k], states[k + 1];
    exists ms :: PolledOnce(cfg, s, u, polls(k), ms, k, stop)
  }

  lemma OneMorePoll(
    cfg: Config, s: Service, states: seq<Service>, u: Service, polls: nat -> Poll, ms: set<MessageId>, stop: StopPoint)
    requires Polled(cfg, s, states, polls, stop)
    requires PolledOnce(cfg, states[|states| - 1], u, polls(|states| - 1), ms, |states| - 1, stop)
    ensures Polled(cfg, s, states + [u], polls, stop)
  {
    var longer := states + [u];
    forall k | 0 <= k < |longer| - 1 ensures Polls(cfg, longer, polls, stop, k) {
      if k < |states| - 1 {
        assert Polls(cfg, states, polls, stop, k) && longer[k] == states[k] && longer[k + 1] == states[k + 1];
      } else {
        assert longer[k] == states[k] && longer[k + 1] == u && PolledOnce(cfg, longer[k], u, polls(k), ms, k, stop);
      }
    }
  }

  ghost predicate PolledOnce(
    cfg: Config, s: Service, u: Service, poll: Poll, ms: set<MessageId>, i: nat, stop: StopPoint)
  {
    && PollDone(cfg, s, u, poll, ms, i == stop.poll && !stop.duringJobs)
    && (poll.Delivers? ==> Served(s, u, ms, poll.scripts, i == stop.poll && !stop.duringJobs))
  }

  lemma SameConsumers(
    s: map<ConsumerId, Consumer>, t: map<ConsumerId, Consumer>, u: map<ConsumerId, Consumer>,
    v: map<ConsumerId, Consumer>, c: ConsumerId)
    requires c in t && t == s[c := t[c]] && c in u && u == t[c := u[c]] && c in v && v == u[c := v[c]]
    ensures v == s[c := v[c]]
  {}

  /** Only the form and receive count of a batch's jobs matter to what they do. */
  lemma BatchServed(
    s: Service, t: Service, u: Service, v: Service, ms: set<MessageId>, phase: Phase, scripts: MessageId -> JobScript)
    requires ms <= s.messages.Keys && t == s.(messages := Leased(s.messages, ms), consumers := t.consumers)
    requires JobsDone(t, u, AllIn(Copies(s.messages, ms), phase), ms, phase, scripts)
    requires v == u.(consumers := v.consumers)
    ensures JobsDone(s.(messages := Leased(s.messages, ms)), v, Copies(s.messages, ms), ms, phase, scripts)
  {
    var copies := Copies(s.messages, ms);
    var batch := AllIn(copies, phase);
    assert Ended(t.messages, batch, ms, phase, scripts) == Ended(t.messages, copies, ms, phase, scripts);
    assert StartsIn(batch, ms, phase) == StartsIn(copies, ms, phase);
    assert SuccessesIn(batch, ms, phase, scripts) == SuccessesIn(copies, ms, phase, scripts);
  }

  /** A batch whose jobs outside `todo` are finished. */
  ghost function PartDone(batch: map<MessageId, Job>, todo: set<MessageId>): map<MessageId, Job> {
    map m | m in batch :: if m in todo then batch[m] else batch[m].(phase := Finished)
  }

  /** `s` with one job in another phase and some history added. */
  ghost function During(
    s: Service, c: ConsumerId, m: MessageId, phase: Phase, starts: seq<Start>, succeeded: set<MessageId>): Service
    requires c in s.consumers && s.consumers[c].loop.Working? && m in s.consumers[c].loop.batch
  {
    WithPhase(s, c, m, phase).(starts := starts, succeeded := succeeded)
  }

  /** Phases overwrite each other. */
  lemma PhaseAgain(
    s: Service, c: ConsumerId, m: MessageId, first: Phase, second: Phase,
    starts: seq<Start>, succeeded: set<MessageId>)
    requires c in s.consumers && s.consumers[c].loop.Working? && m in s.consumers[c].loop.batch
    ensures
      WithPhase(During(s, c, m, first, starts, succeeded), c, m, second) ==
      During(s, c, m, second, starts, succeeded)
  {
    var jobs, t := s.consumers[c].loop.batch, WithPhase(s, c, m, first);
    assert jobs[m := jobs[m].(phase := first)][m := jobs[m].(phase := second)] == jobs[m := jobs[m].(phase := second)];
    var loop := Working(jobs[m := jobs[m].(phase := second)]);
    assert t.consumers[c := t.consumers[c].(loop := loop)] == s.consumers[c := s.consumers[c].(loop := loop)];
  }
}
