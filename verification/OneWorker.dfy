/**
 What the heartbeat is for: while a worker's lease is in force no second worker gets its message.
 Joins the leases of one message over time to the queue and its processes.
 */
module OneWorker {
  import opened Options
  import opened SqsConsumer
  import Lease

  /** Jobs before or inside their handler; in the wide sense, all jobs up to their last call. */
  predicate Counts(wide: bool, phase: Phase) {
    phase == Waiting || phase == Running || (wide && phase != Finished)
  }

  predicate InHand(wide: bool, s: Service, c: ConsumerId, m: MessageId) {
    Holds(s, c, m) && Counts(wide, Held(s, c, m).phase)
  }

  /** No lease runs out under a job that counts; a dead worker's may. */
  ghost predicate LeasesHold(wide: bool, cfg: Config, s: Service, acts: seq<Action>)
    requires Legal(cfg, s, acts)
    decreases |acts|
  {
    acts == [] ||
    (LeasesHold(wide, cfg, s, acts[..|acts| - 1]) && HoldsUp(wide, Run(cfg, s, acts[..|acts| - 1]), acts[|acts| - 1]))
  }

  ghost predicate HoldsUp(wide: bool, s: Service, a: Action) {
    a.Expire? ==> forall c :: !InHand(wide, s, c, a.m)
  }

  // ----- The invariant -------------------------------------------------------------------------

  /** The message is hidden, by the very receive the job comes from. */
  predicate Covered(s: Service, c: ConsumerId, m: MessageId)
    requires Holds(s, c, m)
  {
    m in s.messages && s.messages[m].place == Hidden && Held(s, c, m).receiveCount == s.messages[m].receives
  }

  ghost predicate AllCovered(wide: bool, s: Service) {
    forall c, m | InHand(wide, s, c, m) :: Covered(s, c, m)
  }

  ghost predicate OneHolder(wide: bool, s: Service) {
    forall b, c, m | InHand(wide, s, b, m) && InHand(wide, s, c, m) :: b == c
  }

  lemma CoveredIsOne(wide: bool, cfg: Config, s: Service)
    requires Inv(cfg, s) && AllCovered(wide, s)
    ensures OneHolder(wide, s)
  {
    forall b, c, m | InHand(wide, s, b, m) && InHand(wide, s, c, m) ensures b == c {
      assert Covered(s, b, m) && Covered(s, c, m);
    }
  }

  /** Jobs that were there already stay covered if their messages did not move. */
  lemma StaysCovered(wide: bool, s: Service, t: Service)
    requires AllCovered(wide, s)
    requires forall c, m | InHand(wide, t, c, m) ::
               InHand(wide, s, c, m) && Held(t, c, m).receiveCount == Held(s, c, m).receiveCount &&
               (m in s.messages ==> m in t.messages && t.messages[m] == s.messages[m])
    ensures AllCovered(wide, t)
  {
    forall c, m | InHand(wide, t, c, m) ensures Covered(t, c, m) {
      assert Covered(s, c, m);
    }
  }

  lemma ReceiveStaysCovered(wide: bool, cfg: Config, s: Service, c: ConsumerId, ms: set<MessageId>)
    requires AllCovered(wide, s) && Enabled(cfg, s, Receive(c, ms))
    ensures AllCovered(wide, Next(cfg, s, Receive(c, ms)))
  {
    var t := Next(cfg, s, Receive(c, ms));
    assert forall m | m in ms :: Receivable(cfg, s, m);
    forall b, m | InHand(wide, t, b, m) ensures Covered(t, b, m) {
      if b != c {
        assert InHand(wide, s, b, m) && Covered(s, b, m);
      }
    }
  }

  lemma LostReplyStaysCovered(wide: bool, cfg: Config, s: Service, c: ConsumerId, ms: set<MessageId>)
    requires AllCovered(wide, s) && Enabled(cfg, s, PollFails(c, ms))
    ensures AllCovered(wide, Next(cfg, s, PollFails(c, ms)))
  {
    var t := Next(cfg, s, PollFails(c, ms));
    assert forall m | m in ms :: Receivable(cfg, s, m);
    forall b, m | InHand(wide, t, b, m) ensures Covered(t, b, m) {
      assert InHand(wide, s, b, m) && Covered(s, b, m);
    }
  }

  /** A job's last call moves its message only if no other process that counts has received it since. */
  lemma FinishStaysCovered(wide: bool, cfg: Config, s: Service, c: ConsumerId, m: MessageId, place: Place)
    requires Inv(cfg, s) && AllCovered(wide, s) && Holds(s, c, m) && s.consumers[c].loop.Working?
    ensures AllCovered(wide, Moved(WithPhase(s, c, m, Finished), m, Held(s, c, m).receiveCount, place))
  {
    var t := Moved(WithPhase(s, c, m, Finished), m, Held(s, c, m).receiveCount, place);
    forall b, k | InHand(wide, t, b, k) ensures Covered(t, b, k) {
      assert InHand(wide, s, b, k) && Covered(s, b, k);
      assert k == m && Held(s, b, m).receiveCount == Held(s, c, m).receiveCount ==> b == c;
    }
  }

  lemma PhaseStaysCovered(wide: bool, s: Service, c: ConsumerId, m: MessageId, phase: Phase)
    requires AllCovered(wide, s) && Holds(s, c, m) && s.consumers[c].loop.Working?
    requires Counts(wide, phase) ==> InHand(wide, s, c, m)
    ensures AllCovered(wide, WithPhase(s, c, m, phase))
  {
    StaysCovered(wide, s, WithPhase(s, c, m, phase));
  }

  lemma JobStepStaysCovered(wide: bool, cfg: Config, s: Service, a: Action)
    requires a.Begin? || a.Return? || a.Throw? || a.Delete? || a.Retry? || a.Release?
    requires Inv(cfg, s) && AllCovered(wide, s) && Enabled(cfg, s, a)
    ensures AllCovered(wide, Next(cfg, s, a))
  {
    var job := Held(s, a.c, a.m);
    match a
    case Begin(c, m) =>
      var phase := if job.wellFormed then Running else Dropping;
      PhaseStaysCovered(wide, s, c, m, phase);
      SameTables(wide, WithPhase(s, c, m, phase), Next(cfg, s, a));
    case Return(c, m) =>
      PhaseStaysCovered(wide, s, c, m, Succeeded);
      SameTables(wide, WithPhase(s, c, m, Succeeded), Next(cfg, s, a));
    case Throw(c, m) => PhaseStaysCovered(wide, s, c, m, Failing);
    case Retry(c, m) => PhaseStaysCovered(wide, s, c, m, Finished);
    case Release(c, m, ok) =>
      PhaseStaysCovered(wide, s, c, m, Finished);
      FinishStaysCovered(wide, cfg, s, c, m, Visible);
    case Delete(c, m, ok) =>
      PhaseStaysCovered(wide, s, c, m, if job.phase == Dropping then Finished else Failing);
      FinishStaysCovered(wide, cfg, s, c, m, Left(if job.phase == Dropping then Malformed else Handled));
  }

  lemma SameTables(wide: bool, s: Service, t: Service)
    requires AllCovered(wide, s) && t.messages == s.messages && t.consumers == s.consumers
    ensures AllCovered(wide, t)
  {
    StaysCovered(wide, s, t);
  }

  lemma QueueStepStaysCovered(wide: bool, cfg: Config, s: Service, a: Action)
    requires a.Send? || a.Redrive? || a.Expire?
    requires AllCovered(wide, s) && Enabled(cfg, s, a) && HoldsUp(wide, s, a)
    ensures AllCovered(wide, Next(cfg, s, a))
  {
    var t := Next(cfg, s, a);
    forall c, m | InHand(wide, t, c, m) ensures Covered(t, c, m) {
      assert InHand(wide, s, c, m) && Covered(s, c, m);
    }
  }

  lemma ProcessStepStaysCovered(wide: bool, cfg: Config, s: Service, a: Action)
    requires a.Launch? || a.Wake? || a.Dispatch? || a.Advance? || a.Stop? || a.Crash?
    requires AllCovered(wide, s) && BatchesWait(s) && Enabled(cfg, s, a)
    ensures AllCovered(wide, Next(cfg, s, a))
  {
    var t := Next(cfg, s, a);
    forall c, m | InHand(wide, t, c, m)
      ensures InHand(wide, s, c, m) && Held(t, c, m).receiveCount == Held(s, c, m).receiveCount
    {
      assert c != a.c ==> t.consumers[c] == s.consumers[c];
    }
    StaysCovered(wide, s, t);
  }

  lemma StepStaysCovered(wide: bool, cfg: Config, s: Service, a: Action)
    requires Inv(cfg, s) && BatchesWait(s) && AllCovered(wide, s) && Enabled(cfg, s, a) && HoldsUp(wide, s, a)
    ensures AllCovered(wide, Next(cfg, s, a))
  {
    match a
    case Receive(c, ms) => ReceiveStaysCovered(wide, cfg, s, c, ms);
    case PollFails(c, ms) => LostReplyStaysCovered(wide, cfg, s, c, ms);
    case Send(_, _) => QueueStepStaysCovered(wide, cfg, s, a);
    case Redrive(_) => QueueStepStaysCovered(wide, cfg, s, a);
    case Expire(_) => QueueStepStaysCovered(wide, cfg, s, a);
    case Launch(_) => ProcessStepStaysCovered(wide, cfg, s, a);
    case Wake(_) => ProcessStepStaysCovered(wide, cfg, s, a);
    case Dispatch(_) => ProcessStepStaysCovered(wide, cfg, s, a);
    case Advance(_) => ProcessStepStaysCovered(wide, cfg, s, a);
    case Stop(_) => ProcessStepStaysCovered(wide, cfg, s, a);
    case Crash(_) => ProcessStepStaysCovered(wide, cfg, s, a);
    case _ => JobStepStaysCovered(wide, cfg, s, a);
  }

  /**
   Over every run in which no lease runs out under a job that counts, at most one process has such a
   job for a message; it has it from the latest receive, and the message stays hidden meanwhile.
   */
  lemma {:induction false} NoSecondWorker(wide: bool, cfg: Config, acts: seq<Action>)
    requires Legal(cfg, EMPTY, acts) && LeasesHold(wide, cfg, EMPTY, acts)
    ensures AllCovered(wide, Run(cfg, EMPTY, acts)) && OneHolder(wide, Run(cfg, EMPTY, acts))
    decreases |acts|
  {
    if acts != [] {
      var front := acts[..|acts| - 1];
      NoSecondWorker(wide, cfg, front);
      RunKeepsInv(cfg, front);
      StepStaysCovered(wide, cfg, Run(cfg, EMPTY, front), acts[|acts| - 1]);
    }
    RunKeepsInv(cfg, acts);
    CoveredIsOne(wide, cfg, Run(cfg, EMPTY, acts));
  }

  // ----- Over time -----------------------------------------------------------------------------------

  /** When each action happens, and how the heartbeat of the jobs of each receive fares. */
  datatype Timing = Timing(at: nat -> real, beats: nat -> Lease.Beats)

  /**
   The life of one job so far: the receive it comes from, when its handler began and when that ended.
   A job that never gets a handler ends when it is dropped or handed back.
   */
  datatype Stamp = Stamp(receive: nat, received: real, begun: Option<real>, ended: Option<real>)

  function NextStamp(s: Service, stamp: Stamp, a: Action, j: nat, now: real, c: ConsumerId, m: MessageId): Stamp {
    match a
    case Receive(b, ms) => if b == c && m in ms then Stamp(j, now, None, None) else stamp
    case Begin(b, k) =>
      if b != c || k != m || !Holds(s, c, m) then stamp
      else if Held(s, c, m).wellFormed then stamp.(begun := Some(now)) else stamp.(ended := Some(now))
    case Return(b, k) => if b == c && k == m then stamp.(ended := Some(now)) else stamp
    case Throw(b, k) => if b == c && k == m then stamp.(ended := Some(now)) else stamp
    case Dispatch(b) =>
      if b == c && Holds(s, c, m) && s.consumers[c].stopping then stamp.(ended := Some(now)) else stamp
    case _ => stamp
  }

  /** The stamp of the job that process `c` has, or last had, for `m`. */
  function StampOf(cfg: Config, acts: seq<Action>, timing: Timing, c: ConsumerId, m: MessageId): Stamp
    requires Legal(cfg, EMPTY, acts)
    decreases |acts|
  {
    if acts == [] then Stamp(0, 0.0, None, None)
    else
      var j := |acts| - 1;
      NextStamp(Run(cfg, EMPTY, acts[..j]), StampOf(cfg, acts[..j], timing, c, m), acts[j], j, timing.at(j), c, m)
  }

  /** The heartbeat runs from the handler's begin to its end. */
  predicate Sent(timeout: real, stamp: Stamp, k: nat)
    requires timeout > 0.0
  {
    stamp.begun.Some? &&
    (stamp.ended.None? || Lease.Spans(k, Lease.Interval(timeout)) + stamp.begun.value < stamp.ended.value)
  }

  /** The receive's own lease, or a renewal's. Beats are counted from the receive. */
  ghost predicate InForce(timeout: real, stamp: Stamp, beats: Lease.Beats, now: real)
    requires timeout > 0.0
  {
    var t := now - stamp.received;
    0.0 <= t < timeout || exists k: nat :: k > 0 && Sent(timeout, stamp, k) && Lease.Covers(timeout, beats, k, t)
  }

  /** What holds of a deployment: its timeout, its network, and how long a job's last calls take, if that is bounded. */
  datatype Deployment = Deployment(timeout: real, network: Lease.Network, closing: Option<real>)
  {
    ghost predicate Valid() { timeout > 0.0 && network.latency >= 0.0 && (closing.Some? ==> closing.value >= 0.0) }
  }

  /** A job begins, or is put aside, within the latency; its last calls are over in time. */
  predicate Prompt(d: Deployment, job: Job, stamp: Stamp, now: real) {
    match job.phase
    case Waiting => now - stamp.received <= d.network.latency
    case Running => true
    case Finished => true
    case _ => d.closing.Some? && stamp.ended.Some? ==> now - stamp.ended.value <= d.closing.value
  }

  /** One more action at its time: jobs are prompt, beats come after they are sent, messages come back after their leases. */
  ghost predicate KeepsTime(cfg: Config, d: Deployment, timing: Timing, acts: seq<Action>, a: Action)
    requires d.Valid() && Legal(cfg, EMPTY, acts)
  {
    var s, j := Run(cfg, EMPTY, acts), |acts|;
    var now := timing.at(j);
    && (j > 0 ==> timing.at(j - 1) <= now)
    && (forall c, m | Holds(s, c, m) :: Prompt(d, Held(s, c, m), StampOf(cfg, acts, timing, c, m), now))
    && (a.Begin? ==>
          var stamp := StampOf(cfg, acts, timing, a.c, a.m);
          forall k: nat :: now - stamp.received <= timing.beats(stamp.receive).delay(k))
    && (a.Expire? ==> forall c | InHand(true, s, c, a.m) && Covered(s, c, a.m) ::
          var stamp := StampOf(cfg, acts, timing, c, a.m);
          !InForce(d.timeout, stamp, timing.beats(stamp.receive), now))
  }

  ghost predicate Timely(cfg: Config, d: Deployment, timing: Timing, acts: seq<Action>)
    requires d.Valid() && Legal(cfg, EMPTY, acts)
    decreases |acts|
  {
    acts == [] ||
    (Timely(cfg, d, timing, acts[..|acts| - 1]) && KeepsTime(cfg, d, timing, acts[..|acts| - 1], acts[|acts| - 1]))
  }

  /** In no timely run do two processes have a job for one message that counts. */
  ghost predicate NeverTwo(wide: bool, cfg: Config, d: Deployment)
    requires d.Valid()
  {
    forall acts, timing: Timing |
      Legal(cfg, EMPTY, acts) && Timely(cfg, d, timing, acts) &&
      (forall i: nat :: Lease.Possible(d.network, timing.beats(i))) :: OneHolder(wide, Run(cfg, EMPTY, acts))
  }

  // ----- Leases hold if they are long enough ------------------------------------------------------------

  /** What a job's stamp says in each phase. */
  predicate StampOk(job: Job, stamp: Stamp, latency: real, now: real) {
    && stamp.received <= now && (stamp.ended.Some? ==> stamp.received <= stamp.ended.value <= now)
    && (stamp.begun.Some? ==> 0.0 <= stamp.begun.value - stamp.received <= latency && stamp.begun.value <= now)
    && match job.phase
       case Waiting => stamp.begun.None? && stamp.ended.None?
       case Running => stamp.begun.Some? && stamp.ended.None?
       case _ => stamp.ended.Some? && (stamp.begun.None? ==> stamp.ended.value - stamp.received <= latency)
  }

  ghost predicate StampsOk(cfg: Config, d: Deployment, timing: Timing, acts: seq<Action>)
    requires Legal(cfg, EMPTY, acts)
  {
    var s := Run(cfg, EMPTY, acts);
    forall c, m | Holds(s, c, m) ::
      |acts| > 0 && StampOk(Held(s, c, m), StampOf(cfg, acts, timing, c, m), d.network.latency, timing.at(|acts| - 1))
  }

  lemma JobStampStep(
    cfg: Config, s: Service, a: Action, stamp: Stamp, latency: real, j: nat, before: real, now: real,
    c: ConsumerId, m: MessageId)
    requires a.Begin? || a.Return? || a.Throw? || a.Delete? || a.Retry? || a.Release?
    requires BatchesWait(s) && Enabled(cfg, s, a) && Holds(Next(cfg, s, a), c, m) && before <= now && latency >= 0.0
    requires Holds(s, c, m) ==>
      StampOk(Held(s, c, m), stamp, latency, before) &&
      (Held(s, c, m).phase == Waiting ==> now - stamp.received <= latency)
    ensures StampOk(Held(Next(cfg, s, a), c, m), NextStamp(s, stamp, a, j, now, c, m), latency, now)
  {
    if a.c == c && a.m == m {
      assert Holds(s, c, m);
    } else {
      assert Holds(s, c, m) && Held(Next(cfg, s, a), c, m) == Held(s, c, m);
    }
  }

  lemma OtherStampStep(
    cfg: Config, s: Service, a: Action, stamp: Stamp, latency: real, j: nat, before: real, now: real,
    c: ConsumerId, m: MessageId)
    requires !(a.Begin? || a.Return? || a.Throw? || a.Delete? || a.Retry? || a.Release?)
    requires BatchesWait(s) && Enabled(cfg, s, a) && Holds(Next(cfg, s, a), c, m) && before <= now && latency >= 0.0
    requires Holds(s, c, m) ==>
      StampOk(Held(s, c, m), stamp, latency, before) &&
      (Held(s, c, m).phase == Waiting ==> now - stamp.received <= latency)
    ensures StampOk(Held(Next(cfg, s, a), c, m), NextStamp(s, stamp, a, j, now, c, m), latency, now)
  {
    assert !a.Receive? ==> Holds(s, c, m);
  }

  /** The stamp of one job over one action. */
  lemma StampStep(
    cfg: Config, s: Service, a: Action, stamp: Stamp, latency: real, j: nat, before: real, now: real,
    c: ConsumerId, m: MessageId)
    requires BatchesWait(s) && Enabled(cfg, s, a) && Holds(Next(cfg, s, a), c, m) && before <= now && latency >= 0.0
    requires Holds(s, c, m) ==>
      StampOk(Held(s, c, m), stamp, latency, before) &&
      (Held(s, c, m).phase == Waiting ==> now - stamp.received <= latency)
    ensures StampOk(Held(Next(cfg, s, a), c, m), NextStamp(s, stamp, a, j, now, c, m), latency, now)
  {
    if a.Begin? || a.Return? || a.Throw? || a.Delete? || a.Retry? || a.Release? {
      JobStampStep(cfg, s, a, stamp, latency, j, before, now, c, m);
    } else {
      OtherStampStep(cfg, s, a, stamp, latency, j, before, now, c, m);
    }
  }

  lemma {:induction false} TimelyStamps(cfg: Config, d: Deployment, timing: Timing, acts: seq<Action>)
    requires d.Valid() && Legal(cfg, EMPTY, acts) && Timely(cfg, d, timing, acts)
    ensures StampsOk(cfg, d, timing, acts)
    decreases |acts|
  {
    if acts != [] {
      var j, front, a := |acts| - 1, acts[..|acts| - 1], acts[|acts| - 1];
      var s := Run(cfg, EMPTY, front);
      TimelyStamps(cfg, d, timing, front);
      RunKeepsInv(cfg, front);
      var before := if j > 0 then timing.at(j - 1) else timing.at(j);
      forall c, m | Holds(Next(cfg, s, a), c, m)
        ensures StampOk(Held(Next(cfg, s, a), c, m), StampOf(cfg, acts, timing, c, m), d.network.latency, timing.at(j))
      {
        var stamp := StampOf(cfg, front, timing, c, m);
        assert Holds(s, c, m) ==> Prompt(d, Held(s, c, m), stamp, timing.at(j));
        StampStep(cfg, s, a, stamp, d.network.latency, j, before, timing.at(j), c, m);
      }
    }
  }

  /** How long a lease must last: the longest gap between renewals and, for the last calls, their time on top. */
  predicate LongEnough(wide: bool, d: Deployment)
    requires d.Valid()
  {
    if wide then d.closing.Some? && Lease.Gap(d.timeout, d.network) + d.closing.value < d.timeout
    else Lease.Gap(d.timeout, d.network) < d.timeout
  }

  /** The lease of a job that counts is in force as long as the job is prompt. */
  lemma StaysInForce(wide: bool, d: Deployment, job: Job, stamp: Stamp, beats: Lease.Beats, before: real, now: real)
    requires d.Valid() && LongEnough(wide, d) && Counts(wide, job.phase) && Lease.Possible(d.network, beats)
    requires StampOk(job, stamp, d.network.latency, before) && before <= now && Prompt(d, job, stamp, now)
    ensures InForce(d.timeout, stamp, beats, now)
  {
    var t := now - stamp.received;
    assert Lease.Gap(d.timeout, d.network) >= d.network.latency by {
      Lease.SpansGrow(0, d.network.losses + 1, Lease.Interval(d.timeout));
    }
    if job.phase == Running {
      Lease.HiddenThroughout(d.timeout, d.network, beats, t);
      var k: nat :| Lease.Covers(d.timeout, beats, k, t);
      assert k > 0 ==> Sent(d.timeout, stamp, k);
    } else if job.phase != Waiting && stamp.begun.Some? && t >= d.timeout {
      var start, end := stamp.begun.value - stamp.received, stamp.ended.value - stamp.received;
      Lease.HiddenWhileClosing(d.timeout, d.network, beats, start, end, d.closing.value, t);
      var k: nat :| k > 0 && Lease.Spans(k, Lease.Interval(d.timeout)) + start < end && Lease.Covers(d.timeout, beats, k, t);
      assert Sent(d.timeout, stamp, k);
    }
  }

  lemma TimelyHoldsUp(wide: bool, cfg: Config, d: Deployment, timing: Timing, acts: seq<Action>, a: Action)
    requires d.Valid() && LongEnough(wide, d) && Legal(cfg, EMPTY, acts) && Timely(cfg, d, timing, acts)
    requires KeepsTime(cfg, d, timing, acts, a) && AllCovered(wide, Run(cfg, EMPTY, acts))
    requires forall i: nat :: Lease.Possible(d.network, timing.beats(i))
    ensures HoldsUp(wide, Run(cfg, EMPTY, acts), a)
  {
    var s := Run(cfg, EMPTY, acts);
    TimelyStamps(cfg, d, timing, acts);
    if a.Expire? {
      forall c ensures !InHand(wide, s, c, a.m) {
        if InHand(wide, s, c, a.m) {
          var stamp := StampOf(cfg, acts, timing, c, a.m);
          assert Covered(s, c, a.m) && InHand(true, s, c, a.m);
          assert StampOk(Held(s, c, a.m), stamp, d.network.latency, timing.at(|acts| - 1));
          StaysInForce(
            wide, d, Held(s, c, a.m), stamp, timing.beats(stamp.receive), timing.at(|acts| - 1), timing.at(|acts|));
          assert false;
        }
      }
    }
  }

  lemma {:induction false} TimelyLeasesHold(wide: bool, cfg: Config, d: Deployment, timing: Timing, acts: seq<Action>)
    requires d.Valid() && LongEnough(wide, d) && Legal(cfg, EMPTY, acts) && Timely(cfg, d, timing, acts)
    requires forall i: nat :: Lease.Possible(d.network, timing.beats(i))
    ensures LeasesHold(wide, cfg, EMPTY, acts)
    decreases |acts|
  {
    if acts != [] {
      var front := acts[..|acts| - 1];
      TimelyLeasesHold(wide, cfg, d, timing, front);
      NoSecondWorker(wide, cfg, front);
      TimelyHoldsUp(wide, cfg, d, timing, front, acts[|acts| - 1]);
    }
  }

  // ----- ... and only then ---------------------------------------------------------------------------------

  /** A timely run of `n` actions that ends in `s`, with the stamp of the job of process `c` for message 0. */
  ghost predicate Stage(
    cfg: Config, d: Deployment, timing: Timing, acts: seq<Action>, n: nat, s: Service, c: ConsumerId, stamp: Stamp)
  {
    && d.Valid() && |acts| == n && Legal(cfg, EMPTY, acts) && Timely(cfg, d, timing, acts)
    && Run(cfg, EMPTY, acts) == s && StampOf(cfg, acts, timing, c, 0) == stamp
  }

  /** One more action where every job but that of process `c` for message 0 is running. */
  lemma Advances(
    cfg: Config, d: Deployment, timing: Timing, acts: seq<Action>, n: nat, s: Service, c: ConsumerId, stamp: Stamp, a: Action)
    returns (longer: seq<Action>)
    requires Stage(cfg, d, timing, acts, n, s, c, stamp) && Enabled(cfg, s, a)
    requires n > 0 ==> timing.at(n - 1) <= timing.at(n)
    requires forall b, m | Holds(s, b, m) :: (b == c && m == 0) || (Held(s, b, m).phase == Running && !a.Expire?)
    requires Holds(s, c, 0) ==> Prompt(d, Held(s, c, 0), stamp, timing.at(n))
    requires a.Begin? ==> a.c == c && forall k: nat :: timing.at(n) - stamp.received <= timing.beats(stamp.receive).delay(k)
    requires a.Expire? ==> !InForce(d.timeout, stamp, timing.beats(stamp.receive), timing.at(n))
    ensures longer == acts + [a]
    ensures Stage(cfg, d, timing, longer, n + 1, Next(cfg, s, a), c, NextStamp(s, stamp, a, n, timing.at(n), c, 0))
  {
    longer := acts + [a];
    assert longer[..|longer| - 1] == acts;
    assert a.Begin? ==> Holds(s, a.c, a.m);
    assert KeepsTime(cfg, d, timing, acts, a);
  }

  /** Process 0 has message 0 in the given phase, process 1 polls. */
  function Working0(place: Place, phase: Phase, starts: seq<Start>, succeeded: set<MessageId>): Service {
    Service(
      map[0 := Message(true, 1, place)],
      map[0 := Consumer(false, Working(map[0 := Job(1, true, phase)])), 1 := Consumer(false, Polling)], starts, succeeded)
  }

  /** The handler begins at `begun`, the next thing happens at `next`, and all else at the timeout. */
  function WorstTiming(d: Deployment, begun: real, next: real): Timing {
    Timing(
      (i: nat) => if i <= 4 then 0.0 else if i == 5 then begun else if i == 6 then next else d.timeout,
      (i: nat) => Lease.Worst(d.network))
  }

  const TWO_POLLING := map[0 := Consumer(false, Polling), 1 := Consumer(false, Polling)]

  lemma TwoPoll(cfg: Config, d: Deployment, timing: Timing) returns (acts: seq<Action>)
    requires d.Valid() && timing.at(0) == timing.at(1) == timing.at(2) == 0.0
    ensures Stage(
      cfg, d, timing, acts, 3, Service(map[0 := Message(true, 0, Visible)], TWO_POLLING, [], {}), 0,
      Stamp(0, 0.0, None, None))
  {
    var stamp := Stamp(0, 0.0, None, None);
    acts := Advances(cfg, d, timing, [], 0, EMPTY, 0, stamp, Send(0, true));
    var s := Service(map[0 := Message(true, 0, Visible)], map[], [], {});
    acts := Advances(cfg, d, timing, acts, 1, s, 0, stamp, Launch(0));
    var t := s.(consumers := map[0 := Consumer(false, Polling)]);
    acts := Advances(cfg, d, timing, acts, 2, t, 0, stamp, Launch(1));
    assert Next(cfg, t, Launch(1)) == s.(consumers := TWO_POLLING);
  }

  /** One waiting message, received by a polling process. */
  lemma ReceiveStep(cfg: Config, s: Service, c: ConsumerId, n: nat)
    requires s.messages == map[0 := Message(true, n, Visible)] && n < cfg.redriveAfter
    requires c in s.consumers && s.consumers[c] == Consumer(false, Polling)
    ensures Enabled(cfg, s, Receive(c, {0}))
    ensures Next(cfg, s, Receive(c, {0})) ==
      s.(messages := map[0 := Message(true, n + 1, Hidden)],
         consumers := s.consumers[c := Consumer(false, Received(map[0 := Job(n + 1, true, Waiting)]))])
  {
    assert Receivable(cfg, s, 0);
    assert Leased(s.messages, {0}) == map[0 := Message(true, n + 1, Hidden)];
    assert Copies(s.messages, {0}) == map[0 := Job(n + 1, true, Waiting)];
  }

  /** Process 0 has received message 0 and not yet looked at it, process 1 polls. */
  function Received0(): Service {
    Service(
      map[0 := Message(true, 1, Hidden)], TWO_POLLING[0 := Consumer(false, Received(map[0 := Job(1, true, Waiting)]))], [], {})
  }

  lemma FirstReceives(cfg: Config, d: Deployment, timing: Timing) returns (acts: seq<Action>)
    requires d.Valid() && cfg.redriveAfter >= 2 && forall i: nat | i <= 4 :: timing.at(i) == 0.0
    ensures Stage(cfg, d, timing, acts, 4, Received0(), 0, Stamp(3, 0.0, None, None))
  {
    acts := TwoPoll(cfg, d, timing);
    var s := Service(map[0 := Message(true, 0, Visible)], TWO_POLLING, [], {});
    ReceiveStep(cfg, s, 0, 0);
    acts := Advances(cfg, d, timing, acts, 3, s, 0, Stamp(0, 0.0, None, None), Receive(0, {0}));
  }

  lemma FirstDispatches(cfg: Config, d: Deployment, timing: Timing) returns (acts: seq<Action>)
    requires d.Valid() && cfg.redriveAfter >= 2 && forall i: nat | i <= 4 :: timing.at(i) == 0.0
    ensures Stage(cfg, d, timing, acts, 5, Working0(Hidden, Waiting, [], {}), 0, Stamp(3, 0.0, None, None))
  {
    acts := FirstReceives(cfg, d, timing);
    acts := Advances(cfg, d, timing, acts, 4, Received0(), 0, Stamp(3, 0.0, None, None), Dispatch(0));
    assert AllIn(map[0 := Job(1, true, Waiting)], Waiting) == map[0 := Job(1, true, Waiting)];
    assert Next(cfg, Received0(), Dispatch(0)) == Working0(Hidden, Waiting, [], {});
  }

  lemma FirstBegins(cfg: Config, d: Deployment, begun: real, next: real) returns (acts: seq<Action>)
    requires d.Valid() && cfg.redriveAfter >= 2 && 0.0 <= begun <= d.network.latency
    ensures Stage(
      cfg, d, WorstTiming(d, begun, next), acts, 6, Working0(Hidden, Running, [Start(0, 1)], {}), 0,
      Stamp(3, 0.0, Some(begun), None))
  {
    var timing := WorstTiming(d, begun, next);
    acts := FirstDispatches(cfg, d, timing);
    var s := Working0(Hidden, Waiting, [], {});
    acts := Advances(cfg, d, timing, acts, 5, s, 0, Stamp(3, 0.0, None, None), Begin(0, 0));
    assert map[0 := Job(1, true, Waiting)][0 := Job(1, true, Running)] == map[0 := Job(1, true, Running)];
    assert Next(cfg, s, Begin(0, 0)) == Working0(Hidden, Running, [Start(0, 1)], {});
  }

  /** Process 0 works on the first receive of message 0, process 1 has just received it a second time. */
  function Received1(phase: Phase, starts: seq<Start>, succeeded: set<MessageId>): Service {
    Working0(Visible, phase, starts, succeeded).(
      messages := map[0 := Message(true, 2, Hidden)],
      consumers := Working0(Visible, phase, starts, succeeded).consumers[
        1 := Consumer(false, Received(map[0 := Job(2, true, Waiting)]))])
  }

  /** Process 1 receives the message that process 0 has in hand. */
  lemma BothHold(wide: bool, cfg: Config, phase: Phase, starts: seq<Start>, succeeded: set<MessageId>)
    requires cfg.redriveAfter >= 2 && Counts(wide, phase)
    ensures
      var t := Working0(Visible, phase, starts, succeeded);
      && Enabled(cfg, t, Receive(1, {0})) && Next(cfg, t, Receive(1, {0})) == Received1(phase, starts, succeeded)
      && !OneHolder(wide, Next(cfg, t, Receive(1, {0})))
  {
    var t := Working0(Visible, phase, starts, succeeded);
    ReceiveStep(cfg, t, 1, 1);
    var u := Next(cfg, t, Receive(1, {0}));
    assert InHand(wide, u, 0, 0) && InHand(wide, u, 1, 0);
  }

  /** The message comes back although process 0 has it ... */
  lemma ComesBack(
    cfg: Config, d: Deployment, timing: Timing, acts: seq<Action>, n: nat, phase: Phase,
    starts: seq<Start>, succeeded: set<MessageId>, stamp: Stamp)
    returns (longer: seq<Action>)
    requires Stage(cfg, d, timing, acts, n, Working0(Hidden, phase, starts, succeeded), 0, stamp)
    requires n > 0 && timing.at(n - 1) <= timing.at(n)
    requires Prompt(d, Job(1, true, phase), stamp, timing.at(n))
    requires !InForce(d.timeout, stamp, timing.beats(stamp.receive), timing.at(n))
    ensures Stage(cfg, d, timing, longer, n + 1, Working0(Visible, phase, starts, succeeded), 0, stamp)
  {
    var s := Working0(Hidden, phase, starts, succeeded);
    longer := Advances(cfg, d, timing, acts, n, s, 0, stamp, Expire(0));
    assert Next(cfg, s, Expire(0)) == Working0(Visible, phase, starts, succeeded);
  }

  /** ... and process 1 receives it too. */
  lemma SecondReceives(
    wide: bool, cfg: Config, d: Deployment, timing: Timing, acts: seq<Action>, n: nat, phase: Phase,
    starts: seq<Start>, succeeded: set<MessageId>, stamp: Stamp)
    returns (longer: seq<Action>)
    requires cfg.redriveAfter >= 2 && Stage(cfg, d, timing, acts, n, Working0(Hidden, phase, starts, succeeded), 0, stamp)
    requires Counts(wide, phase) && n > 0 && timing.at(n - 1) <= timing.at(n) == timing.at(n + 1)
    requires Prompt(d, Job(1, true, phase), stamp, timing.at(n))
    requires !InForce(d.timeout, stamp, timing.beats(stamp.receive), timing.at(n))
    ensures Stage(cfg, d, timing, longer, n + 2, Received1(phase, starts, succeeded), 0, stamp)
    ensures !OneHolder(wide, Run(cfg, EMPTY, longer)) && longer[n + 1] == Receive(1, {0})
  {
    longer := ComesBack(cfg, d, timing, acts, n, phase, starts, succeeded, stamp);
    BothHold(wide, cfg, phase, starts, succeeded);
    longer := Advances(
      cfg, d, timing, longer, n + 1, Working0(Visible, phase, starts, succeeded), 0, stamp, Receive(1, {0}));
  }

  /** A running handler's lease can run out. */
  lemma RunningLapses(wide: bool, cfg: Config, d: Deployment) returns (acts: seq<Action>)
    requires d.Valid() && cfg.redriveAfter >= 2 && Lease.Gap(d.timeout, d.network) >= d.timeout
    ensures Stage(
      cfg, d, WorstTiming(d, 0.0, d.timeout), acts, 8, Received1(Running, [Start(0, 1)], {}), 0,
      Stamp(3, 0.0, Some(0.0), None))
    ensures !OneHolder(wide, Run(cfg, EMPTY, acts)) && acts[7] == Receive(1, {0})
  {
    var timing, stamp := WorstTiming(d, 0.0, d.timeout), Stamp(3, 0.0, Some(0.0), None);
    acts := FirstBegins(cfg, d, 0.0, d.timeout);
    Lease.WorstLapses(d.timeout, d.network);
    assert !InForce(d.timeout, stamp, timing.beats(3), d.timeout);
    acts := SecondReceives(wide, cfg, d, timing, acts, 6, Running, [Start(0, 1)], {}, stamp);
  }

  /** Both processes are in their handlers, on the two receives of message 0. */
  predicate BothRun(s: Service) {
    && InPhase(s, 0, 0, Running) && Held(s, 0, 0).receiveCount == 1
    && InPhase(s, 1, 0, Running) && Held(s, 1, 0).receiveCount == 2
  }

  lemma SecondWaits(cfg: Config, d: Deployment) returns (acts: seq<Action>)
    requires d.Valid() && cfg.redriveAfter >= 2 && Lease.Gap(d.timeout, d.network) >= d.timeout
    ensures Stage(
      cfg, d, WorstTiming(d, 0.0, d.timeout), acts, 8, Received1(Running, [Start(0, 1)], {}), 1,
      Stamp(7, d.timeout, None, None))
  {
    acts := RunningLapses(false, cfg, d);
  }

  lemma SecondDispatches(cfg: Config, d: Deployment) returns (acts: seq<Action>)
    requires d.Valid() && cfg.redriveAfter >= 2 && Lease.Gap(d.timeout, d.network) >= d.timeout
    ensures
      var s := WithLoop(Received1(Running, [Start(0, 1)], {}), 1, Working(map[0 := Job(2, true, Waiting)]));
      Stage(cfg, d, WorstTiming(d, 0.0, d.timeout), acts, 9, s, 1, Stamp(7, d.timeout, None, None))
  {
    acts := SecondWaits(cfg, d);
    assert AllIn(map[0 := Job(2, true, Waiting)], Waiting) == map[0 := Job(2, true, Waiting)];
    acts := Advances(
      cfg, d, WorstTiming(d, 0.0, d.timeout), acts, 8, Received1(Running, [Start(0, 1)], {}), 1,
      Stamp(7, d.timeout, None, None), Dispatch(1));
  }

  /** When the first lease runs out, the second handler begins. */
  lemma SecondBegins(cfg: Config, d: Deployment) returns (acts: seq<Action>)
    requires d.Valid() && cfg.redriveAfter >= 2 && Lease.Gap(d.timeout, d.network) >= d.timeout
    ensures Legal(cfg, EMPTY, acts) && Timely(cfg, d, WorstTiming(d, 0.0, d.timeout), acts)
    ensures BothRun(Run(cfg, EMPTY, acts))
  {
    acts := SecondDispatches(cfg, d);
    var s := WithLoop(Received1(Running, [Start(0, 1)], {}), 1, Working(map[0 := Job(2, true, Waiting)]));
    acts := Advances(
      cfg, d, WorstTiming(d, 0.0, d.timeout), acts, 9, s, 1, Stamp(7, d.timeout, None, None), Begin(1, 0));
  }

  /** No beat that was sent before the handler's end has got through. */
  lemma EndedTooSoon(d: Deployment, k: nat)
    requires d.Valid() && k > 0
    requires Sent(d.timeout, Stamp(3, 0.0, Some(d.network.latency), Some(Lease.Gap(d.timeout, d.network))), k)
    ensures Lease.Worst(d.network).lost(k)
  {
    var n, h := d.network.losses + 1, Lease.Interval(d.timeout);
    if k >= n { Lease.SpansGrow(n, k, h); }
    assert !Lease.Turn(k, n);
  }

  lemma ReturnStep(cfg: Config)
    ensures
      var s := Working0(Hidden, Running, [Start(0, 1)], {});
      Enabled(cfg, s, Return(0, 0)) && Next(cfg, s, Return(0, 0)) == Working0(Hidden, Succeeded, [Start(0, 1)], {0})
  {
    assert map[0 := Job(1, true, Running)][0 := Job(1, true, Succeeded)] == map[0 := Job(1, true, Succeeded)];
  }

  lemma FirstReturns(cfg: Config, d: Deployment) returns (acts: seq<Action>)
    requires d.Valid() && cfg.redriveAfter >= 2
    ensures
      var end := Lease.Gap(d.timeout, d.network);
      Stage(
        cfg, d, WorstTiming(d, d.network.latency, end), acts, 7, Working0(Hidden, Succeeded, [Start(0, 1)], {0}), 0,
        Stamp(3, 0.0, Some(d.network.latency), Some(end)))
  {
    var end := Lease.Gap(d.timeout, d.network);
    var timing, stamp := WorstTiming(d, d.network.latency, end), Stamp(3, 0.0, Some(d.network.latency), None);
    Lease.SpansGrow(0, d.network.losses + 1, Lease.Interval(d.timeout));
    acts := FirstBegins(cfg, d, d.network.latency, end);
    ReturnStep(cfg);
    acts := Advances(cfg, d, timing, acts, 6, Working0(Hidden, Running, [Start(0, 1)], {}), 0, stamp, Return(0, 0));
  }

  /** The delete of a handler that ends just before its first beat gets out can come too late. */
  lemma ClosingLapses(cfg: Config, d: Deployment) returns (acts: seq<Action>)
    requires d.Valid() && cfg.redriveAfter >= 2 && Lease.Gap(d.timeout, d.network) < d.timeout
    requires d.closing.Some? ==> Lease.Gap(d.timeout, d.network) + d.closing.value >= d.timeout
    ensures
      var timing := WorstTiming(d, d.network.latency, Lease.Gap(d.timeout, d.network));
      Legal(cfg, EMPTY, acts) && Timely(cfg, d, timing, acts) && !OneHolder(true, Run(cfg, EMPTY, acts))
  {
    var end := Lease.Gap(d.timeout, d.network);
    var timing, stamp := WorstTiming(d, d.network.latency, end), Stamp(3, 0.0, Some(d.network.latency), Some(end));
    acts := FirstReturns(cfg, d);
    forall k: nat | k > 0 && Sent(d.timeout, stamp, k) ensures !Lease.Covers(d.timeout, timing.beats(3), k, d.timeout) {
      EndedTooSoon(d, k);
    }
    assert !InForce(d.timeout, stamp, timing.beats(3), d.timeout);
    acts := SecondReceives(true, cfg, d, timing, acts, 7, Succeeded, [Start(0, 1)], {0}, stamp);
  }

  lemma LongEnoughSuffices(wide: bool, cfg: Config, d: Deployment)
    requires d.Valid() && LongEnough(wide, d)
    ensures NeverTwo(wide, cfg, d)
  {
    forall acts, timing: Timing |
      Legal(cfg, EMPTY, acts) && Timely(cfg, d, timing, acts) &&
      (forall i: nat :: Lease.Possible(d.network, timing.beats(i))) ensures OneHolder(wide, Run(cfg, EMPTY, acts))
    {
      TimelyLeasesHold(wide, cfg, d, timing, acts);
      NoSecondWorker(wide, cfg, acts);
    }
  }

  /**
   On a queue that allows two receives: no timely run has two processes before or inside a handler for
   one message exactly when the lease outlasts the longest gap between two renewals, however long the
   last calls take; and none has two processes with that message in hand at all exactly when the
   lease outlasts that gap and the time of the last calls together.
   */
  lemma NeverTwoIff(wide: bool, cfg: Config, d: Deployment)
    requires d.Valid() && cfg.redriveAfter >= 2
    ensures NeverTwo(wide, cfg, d) <==> LongEnough(wide, d)
  {
    if LongEnough(wide, d) {
      LongEnoughSuffices(wide, cfg, d);
    } else {
      Lease.WorstIsPossible(d.network);
      if Lease.Gap(d.timeout, d.network) >= d.timeout {
        var acts := RunningLapses(wide, cfg, d);
        assert forall i: nat :: WorstTiming(d, 0.0, d.timeout).beats(i) == Lease.Worst(d.network);
      } else {
        var acts := ClosingLapses(cfg, d);
        var end := Lease.Gap(d.timeout, d.network);
        assert forall i: nat :: WorstTiming(d, d.network.latency, end).beats(i) == Lease.Worst(d.network);
      }
    }
  }
}
