/**
 The supplier-refund job with the queue whose messages it handles: each delivery belongs to a running
 handler, and how many handlers run at once follows from the number of processes and the batch size.
 */
module RefundDeliveries {
  import opened Options
  import Sqs = SqsConsumer
  import Refund = SupplierRefund

  /** One handler start. */
  datatype Slot = Slot(c: Sqs.ConsumerId, m: Sqs.MessageId, receive: nat)

  /**
   `slots` says which handler start every delivery so far belongs to; a process in `doomed` is dying
   with its deliveries.
   */
  datatype Both = Both(
    queue: Sqs.Service, refund: Refund.System, slots: map<Refund.WorkerId, Slot>, doomed: set<Sqs.ConsumerId>)

  datatype Event =
    | Queue(action: Sqs.Action)
    | Begins(w: Refund.WorkerId, slot: Slot, adapter: Refund.Adapter)
    | Call(step: Refund.Action)

  /** The queue, how many processes run at a time, and the supplier's calls. */
  datatype Deployment = Deployment(queue: Sqs.Config, processes: nat, thrownCallMayHaveFiled: bool)
  {
    function Free(): Refund.Config { Refund.Config(Refund.Unrestricted, thrownCallMayHaveFiled) }
    function Apart(): Refund.Config { Refund.Config(Refund.PerSupplierOrder, thrownCallMayHaveFiled) }
  }

  /** The refund that each message asks for. */
  type Payloads = Sqs.MessageId -> Refund.Key

  const IDLE := Both(Sqs.EMPTY, Refund.IDLE, map[], {})

  predicate Runs(s: Sqs.Service, slot: Slot) {
    Sqs.InPhase(s, slot.c, slot.m, Sqs.Running) && Sqs.Held(s, slot.c, slot.m).receiveCount == slot.receive
  }

  predicate IsBy(a: Sqs.Action, c: Sqs.ConsumerId) {
    !a.Send? && !a.Expire? && !a.Redrive? && a.c == c
  }

  /** A handler ends only after its delivery has, and a dying process does nothing but die. */
  predicate Enabled(d: Deployment, keys: Payloads, b: Both, e: Event) {
    match e
    case Queue(a) =>
      && Sqs.Enabled(d.queue, b.queue, a)
      && (a.Launch? ==> |b.queue.consumers| < d.processes)
      && (forall w | w in b.refund.live && w in b.slots :: !Sqs.EndsHandler(a, b.slots[w].c, b.slots[w].m))
      && (forall c | c in b.doomed :: IsBy(a, c) ==> a.Crash?)
    case Begins(w, slot, adapter) =>
      && w !in b.slots && slot !in b.slots.Values && Runs(b.queue, slot) && slot.c !in b.doomed
      && Refund.Enabled(d.Free(), b.refund, Refund.Deliver(w, keys(slot.m), adapter))
    case Call(a) =>
      && Refund.Enabled(d.Free(), b.refund, a) && !a.Deliver?
      && (!a.AcceptOrphan? && a.w in b.slots && b.slots[a.w].c in b.doomed ==> a.Die?)
  }

  function Next(d: Deployment, keys: Payloads, b: Both, e: Event): Both
    requires Enabled(d, keys, b, e)
  {
    match e
    case Queue(a) =>
      b.(queue := Sqs.Next(d.queue, b.queue, a), doomed := if a.Crash? then b.doomed - {a.c} else b.doomed)
    case Begins(w, slot, adapter) =>
      b.(refund := Refund.Next(d.Free(), b.refund, Refund.Deliver(w, keys(slot.m), adapter)),
         slots := b.slots[w := slot])
    case Call(a) =>
      var stops := a.Die? && a.w in b.slots && b.refund.live[a.w].phase.Calling?;
      b.(refund := Refund.Next(d.Free(), b.refund, a),
         doomed := if stops then b.doomed + {b.slots[a.w].c} else b.doomed)
  }

  predicate Legal(d: Deployment, keys: Payloads, run: seq<Event>)
    decreases |run|, 0
  {
    run == [] ||
    (Legal(d, keys, run[..|run| - 1]) && Enabled(d, keys, Run(d, keys, run[..|run| - 1]), run[|run| - 1]))
  }

  function Run(d: Deployment, keys: Payloads, run: seq<Event>): Both
    requires Legal(d, keys, run)
    decreases |run|, 1
  {
    if run == [] then IDLE else Next(d, keys, Run(d, keys, run[..|run| - 1]), run[|run| - 1])
  }

  /** In no run does the supplier accept a refund twice. */
  ghost predicate AtMostOnce(d: Deployment) {
    forall keys, run, key: Refund.Key | Legal(d, keys, run) :: Refund.Count(Run(d, keys, run).refund.filed, key) <= 1
  }

  // ----- One process, one message at a time ------------------------------------------------------------

  /** Processes and their batches keep to their limits. */
  ghost predicate Small(d: Deployment, s: Sqs.Service) {
    |s.consumers| <= d.processes && forall c | c in s.consumers :: |s.consumers[c].Jobs()| <= d.queue.BatchSize()
  }

  /** Every delivery under way is that of a running handler, and no two are of the same. */
  ghost predicate Inv(d: Deployment, keys: Payloads, b: Both) {
    && Small(d, b.queue)
    && (forall w | w in b.refund.live ::
          w in b.slots && Runs(b.queue, b.slots[w]) && b.refund.live[w].key == keys(b.slots[w].m))
    && (forall v, w | v in b.slots && w in b.slots && b.slots[v] == b.slots[w] :: v == w)
  }

  lemma KeysOnly(s: map<Sqs.MessageId, Sqs.Job>, t: map<Sqs.MessageId, Sqs.Job>)
    requires s.Keys == t.Keys
    ensures |s| == |t|
  {
    assert |s| == |s.Keys| && |t| == |t.Keys|;
  }

  predicate IsJobStep(a: Sqs.Action) {
    a.Begin? || a.Return? || a.Throw? || a.Delete? || a.Retry? || a.Release?
  }

  lemma JobStepKeepsBatch(cfg: Sqs.Config, s: Sqs.Service, a: Sqs.Action, c: Sqs.ConsumerId)
    requires IsJobStep(a) && Sqs.Enabled(cfg, s, a) && c in s.consumers
    ensures
      var t := Sqs.Next(cfg, s, a);
      c in t.consumers && t.consumers[c].Jobs().Keys == s.consumers[c].Jobs().Keys && t.consumers.Keys == s.consumers.Keys
  {}

  lemma OtherStepKeepsBatch(cfg: Sqs.Config, s: Sqs.Service, a: Sqs.Action, c: Sqs.ConsumerId)
    requires !IsJobStep(a) && Sqs.Enabled(cfg, s, a) && c in Sqs.Next(cfg, s, a).consumers
    requires Sqs.Next(cfg, s, a).consumers[c].Jobs() != map[] && !(a.Receive? && a.c == c)
    ensures c in s.consumers && Sqs.Next(cfg, s, a).consumers[c].Jobs().Keys == s.consumers[c].Jobs().Keys
  {}

  lemma BatchesStaySmall(d: Deployment, s: Sqs.Service, a: Sqs.Action, c: Sqs.ConsumerId)
    requires Small(d, s) && Sqs.Enabled(d.queue, s, a) && c in Sqs.Next(d.queue, s, a).consumers
    ensures |Sqs.Next(d.queue, s, a).consumers[c].Jobs()| <= d.queue.BatchSize()
  {
    var jobs := Sqs.Next(d.queue, s, a).consumers[c].Jobs();
    if a.Receive? && a.c == c {
      assert jobs.Keys == a.ms && |jobs| == |jobs.Keys|;
    } else if jobs != map[] {
      if IsJobStep(a) {
        assert c in s.consumers;
        JobStepKeepsBatch(d.queue, s, a, c);
      } else {
        OtherStepKeepsBatch(d.queue, s, a, c);
      }
      KeysOnly(jobs, s.consumers[c].Jobs());
    }
  }

  lemma ProcessesStayFew(d: Deployment, s: Sqs.Service, a: Sqs.Action)
    requires |s.consumers| <= d.processes && Sqs.Enabled(d.queue, s, a) && (a.Launch? ==> |s.consumers| < d.processes)
    ensures |Sqs.Next(d.queue, s, a).consumers| <= d.processes
  {
    var t := Sqs.Next(d.queue, s, a);
    if a.Launch? {
      assert t.consumers.Keys == s.consumers.Keys + {a.c};
    } else if a.Crash? {
      assert t.consumers.Keys == s.consumers.Keys - {a.c};
    } else {
      assert t.consumers.Keys == s.consumers.Keys;
    }
    assert |t.consumers| == |t.consumers.Keys| && |s.consumers| == |s.consumers.Keys|;
  }

  lemma QueueStepKeepsInv(d: Deployment, keys: Payloads, b: Both, a: Sqs.Action)
    requires Inv(d, keys, b) && Enabled(d, keys, b, Queue(a))
    ensures Inv(d, keys, Next(d, keys, b, Queue(a)))
  {
    ProcessesStayFew(d, b.queue, a);
    var t := Sqs.Next(d.queue, b.queue, a);
    forall c | c in t.consumers ensures |t.consumers[c].Jobs()| <= d.queue.BatchSize() {
      BatchesStaySmall(d, b.queue, a, c);
    }
    forall w | w in b.refund.live ensures Runs(t, b.slots[w]) {
      Sqs.KeepsRunning(d.queue, b.queue, a, b.slots[w].c, b.slots[w].m);
    }
  }

  /** Only a delivery's begin adds one, and a delivery keeps its refund. */
  lemma KeepsKey(cfg: Refund.Config, s: Refund.System, a: Refund.Action, w: Refund.WorkerId)
    requires Refund.Enabled(cfg, s, a) && !a.Deliver? && w in Refund.Next(cfg, s, a).live
    ensures w in s.live && Refund.Next(cfg, s, a).live[w].key == s.live[w].key
  {}

  lemma StepKeepsInv(d: Deployment, keys: Payloads, b: Both, e: Event)
    requires Inv(d, keys, b) && Enabled(d, keys, b, e)
    ensures Inv(d, keys, Next(d, keys, b, e))
  {
    match e
    case Queue(a) => QueueStepKeepsInv(d, keys, b, a);
    case Begins(w, slot, adapter) =>
      assert forall v | v in b.slots :: b.slots[v] in b.slots.Values;
    case Call(a) =>
      var t := Next(d, keys, b, e);
      forall w | w in t.refund.live
        ensures w in t.slots && Runs(t.queue, t.slots[w]) && t.refund.live[w].key == keys(t.slots[w].m)
      {
        KeepsKey(d.Free(), b.refund, a, w);
      }
  }

  lemma {:induction false} RunKeepsInv(d: Deployment, keys: Payloads, run: seq<Event>)
    requires Legal(d, keys, run)
    ensures Inv(d, keys, Run(d, keys, run))
    decreases |run|
  {
    if run != [] {
      RunKeepsInv(d, keys, run[..|run| - 1]);
      StepKeepsInv(d, keys, Run(d, keys, run[..|run| - 1]), run[|run| - 1]);
    }
  }

  lemma OneKey<K, V>(m: map<K, V>, a: K, b: K)
    requires |m| <= 1 && a in m && b in m
    ensures a == b
  {
    if a != b {
      assert {a, b} <= m.Keys && |{a, b}| == 2;
      Subset({a, b}, m.Keys);
      assert false;
    }
  }

  lemma {:induction false} Subset<K>(s: set<K>, t: set<K>)
    requires s <= t
    ensures |s| <= |t|
  {
    assert t == s + (t - s);
  }

  /** One process with one message has one handler, and that one has one delivery. */
  lemma OneRuns(d: Deployment, keys: Payloads, b: Both, first: Slot, second: Slot)
    requires Inv(d, keys, b) && d.processes <= 1 && d.queue.BatchSize() == 1
    requires Runs(b.queue, first) && Runs(b.queue, second)
    ensures first == second
  {
    OneKey(b.queue.consumers, first.c, second.c);
    OneKey(b.queue.consumers[first.c].Jobs(), first.m, second.m);
  }

  /** What an event does to the deliveries. */
  function CallOf(keys: Payloads, e: Event): Refund.Action
    requires !e.Queue?
  {
    match e
    case Begins(w, slot, adapter) => Refund.Deliver(w, keys(slot.m), adapter)
    case Call(a) => a
  }

  function CallsOf(keys: Payloads, run: seq<Event>): seq<Refund.Action> {
    if run == [] then []
    else
      var e := run[|run| - 1];
      CallsOf(keys, run[..|run| - 1]) + if e.Queue? then [] else [CallOf(keys, e)]
  }

  lemma StepApart(d: Deployment, keys: Payloads, b: Both, e: Event)
    requires Inv(d, keys, b) && d.processes <= 1 && d.queue.BatchSize() == 1
    requires Enabled(d, keys, b, e) && !e.Queue?
    ensures Refund.Enabled(d.Apart(), b.refund, CallOf(keys, e))
  {
    if e.Begins? {
      forall w | w in b.refund.live ensures b.slots[w] == e.slot { OneRuns(d, keys, b, b.slots[w], e.slot); }
      assert forall v | v in b.slots :: b.slots[v] in b.slots.Values;
    }
  }

  lemma SameStep(d: Deployment, s: Refund.System, a: Refund.Action)
    requires Refund.Enabled(d.Apart(), s, a)
    ensures Refund.Enabled(d.Free(), s, a) && Refund.Next(d.Apart(), s, a) == Refund.Next(d.Free(), s, a)
  {}

  /** With one process and one message at a time, deliveries never overlap. */
  lemma {:induction false} CallsApart(d: Deployment, keys: Payloads, run: seq<Event>)
    requires Legal(d, keys, run) && d.processes <= 1 && d.queue.BatchSize() == 1
    ensures Refund.Legal(d.Apart(), Refund.IDLE, CallsOf(keys, run))
    ensures Refund.Run(d.Apart(), Refund.IDLE, CallsOf(keys, run)) == Run(d, keys, run).refund
    decreases |run|
  {
    if run != [] {
      var front, e := run[..|run| - 1], run[|run| - 1];
      CallsApart(d, keys, front);
      if e.Queue? {
        assert CallsOf(keys, run) == CallsOf(keys, front);
      } else {
        RunKeepsInv(d, keys, front);
        StepApart(d, keys, Run(d, keys, front), e);
        SameStep(d, Run(d, keys, front).refund, CallOf(keys, e));
        var calls := Refund.Then(d.Apart(), Refund.IDLE, CallsOf(keys, front), CallOf(keys, e));
        assert CallsOf(keys, run) == calls;
      }
    }
  }

  // ----- ... and otherwise they do ------------------------------------------------------------------------

  ghost predicate Reaches(d: Deployment, keys: Payloads, b: Both) {
    exists run :: Legal(d, keys, run) && Run(d, keys, run) == b
  }

  lemma OneMore(d: Deployment, keys: Payloads, run: seq<Event>, e: Event)
    requires Legal(d, keys, run) && Enabled(d, keys, Run(d, keys, run), e)
    ensures Legal(d, keys, run + [e]) && Run(d, keys, run + [e]) == Next(d, keys, Run(d, keys, run), e)
  {
    var longer := run + [e];
    assert longer[..|longer| - 1] == run;
  }

  lemma Then(d: Deployment, keys: Payloads, b: Both, e: Event)
    requires Reaches(d, keys, b) && Enabled(d, keys, b, e)
    ensures Reaches(d, keys, Next(d, keys, b, e))
  {
    var run :| Legal(d, keys, run) && Run(d, keys, run) == b;
    OneMore(d, keys, run, e);
  }

  /** The queue moves on while nobody is dying, and no handler ends. */
  lemma Moves(d: Deployment, keys: Payloads, b: Both, a: Sqs.Action) returns (t: Both)
    requires Reaches(d, keys, b) && b.doomed == {} && Sqs.Enabled(d.queue, b.queue, a)
    requires !a.Return? && !a.Throw? && !a.Crash? && (a.Launch? ==> |b.queue.consumers| < d.processes)
    ensures t == b.(queue := Sqs.Next(d.queue, b.queue, a)) && Reaches(d, keys, t)
  {
    t := b.(queue := Sqs.Next(d.queue, b.queue, a));
    Then(d, keys, b, Queue(a));
  }

  /** A polling process receives messages and takes them up. */
  lemma TakesUp(d: Deployment, keys: Payloads, b: Both, c: Sqs.ConsumerId, ms: set<Sqs.MessageId>) returns (t: Both)
    requires Reaches(d, keys, b) && b.doomed == {} && c in b.queue.consumers
    requires b.queue.consumers[c] == Sqs.Consumer(false, Sqs.Polling) && |ms| <= d.queue.BatchSize()
    requires ms <= b.queue.messages.Keys && forall m | m in ms :: Sqs.Receivable(d.queue, b.queue, m)
    ensures t == b.(queue := t.queue) && Reaches(d, keys, t)
    ensures t.queue.messages == Sqs.Leased(b.queue.messages, ms)
    ensures t.queue.consumers ==
      b.queue.consumers[c := Sqs.Consumer(false, Sqs.Working(Sqs.Copies(b.queue.messages, ms)))]
  {
    var u := Moves(d, keys, b, Sqs.Receive(c, ms));
    t := Moves(d, keys, u, Sqs.Dispatch(c));
    var copies := Sqs.Copies(b.queue.messages, ms);
    assert Sqs.AllIn(copies, Sqs.Waiting) == copies;
  }

  /** ... and begins a handler on one of them. */
  lemma StartsHandler(d: Deployment, keys: Payloads, b: Both, c: Sqs.ConsumerId, m: Sqs.MessageId) returns (t: Both)
    requires Reaches(d, keys, b) && b.doomed == {}
    requires Sqs.InPhase(b.queue, c, m, Sqs.Waiting) && Sqs.Held(b.queue, c, m).wellFormed
    ensures t == b.(queue := t.queue) && Reaches(d, keys, t)
    ensures t.queue == Sqs.WithPhase(b.queue, c, m, Sqs.Running).(starts := t.queue.starts)
    ensures Runs(t.queue, Slot(c, m, Sqs.Held(b.queue, c, m).receiveCount))
  {
    t := Moves(d, keys, b, Sqs.Begin(c, m));
  }

  /** A process that has no delivery left dies ... */
  lemma Stops(d: Deployment, keys: Payloads, b: Both, c: Sqs.ConsumerId) returns (t: Both)
    requires Reaches(d, keys, b) && b.doomed <= {c} && c in b.queue.consumers && |b.queue.consumers| <= d.processes
    requires forall w | w in b.refund.live :: w in b.slots && b.slots[w].c != c
    ensures t == b.(queue := t.queue, doomed := {}) && Reaches(d, keys, t)
    ensures t.queue == b.queue.(consumers := b.queue.consumers - {c}) && |t.queue.consumers| < d.processes
  {
    Then(d, keys, b, Queue(Sqs.Crash(c)));
    t := Next(d, keys, b, Queue(Sqs.Crash(c)));
    assert t.queue.consumers.Keys == b.queue.consumers.Keys - {c};
    assert |t.queue.consumers| == |t.queue.consumers.Keys| && |b.queue.consumers| == |b.queue.consumers.Keys|;
  }

  /** ... its message comes back, and a process takes its place ... */
  lemma Restarts(d: Deployment, keys: Payloads, b: Both, c: Sqs.ConsumerId, m: Sqs.MessageId) returns (t: Both)
    requires Reaches(d, keys, b) && b.doomed <= {c} && c in b.queue.consumers && |b.queue.consumers| <= d.processes
    requires forall w | w in b.refund.live :: w in b.slots && b.slots[w].c != c
    requires m in b.queue.messages && b.queue.messages[m].place == Sqs.Hidden
    ensures t == b.(queue := t.queue, doomed := {}) && Reaches(d, keys, t)
    ensures t.queue.messages == b.queue.messages[m := b.queue.messages[m].(place := Sqs.Visible)]
    ensures t.queue.consumers == b.queue.consumers[c := Sqs.Consumer(false, Sqs.Polling)]
  {
    var u := Stops(d, keys, b, c);
    u := Moves(d, keys, u, Sqs.Expire(m));
    t := Moves(d, keys, u, Sqs.Launch(c));
  }

  /** ... which runs its handler again. */
  lemma RunsAgain(d: Deployment, keys: Payloads, b: Both, slot: Slot) returns (t: Both)
    requires Reaches(d, keys, b) && b.doomed <= {slot.c} && Runs(b.queue, slot) && |b.queue.consumers| <= d.processes
    requires forall w | w in b.refund.live :: w in b.slots && b.slots[w].c != slot.c
    requires slot.m in b.queue.messages && slot.receive < d.queue.redriveAfter
    requires b.queue.messages[slot.m] == Sqs.Message(true, slot.receive, Sqs.Hidden)
    ensures t == b.(queue := t.queue, doomed := {}) && Reaches(d, keys, t)
    ensures Runs(t.queue, Slot(slot.c, slot.m, slot.receive + 1))
  {
    var c, m := slot.c, slot.m;
    var u := Restarts(d, keys, b, c, m);
    var v := TakesUp(d, keys, u, c, {m});
    assert Sqs.Copies(u.queue.messages, {m})[m] == Sqs.Job(slot.receive + 1, true, Sqs.Waiting);
    t := StartsHandler(d, keys, v, c, m);
  }

  /** A delivery makes a step of its own. */
  lemma Calls(d: Deployment, keys: Payloads, b: Both, a: Refund.Action) returns (t: Both)
    requires Reaches(d, keys, b) && b.doomed == {} && Refund.Enabled(d.Free(), b.refund, a)
    requires !a.Deliver? && !a.AcceptOrphan? && !a.Die?
    ensures t == b.(refund := Refund.Next(d.Free(), b.refund, a)) && Reaches(d, keys, t)
  {
    t := b.(refund := Refund.Next(d.Free(), b.refund, a));
    Then(d, keys, b, Call(a));
  }

  /** The handler start is that of a delivery that may begin. */
  predicate Ready(b: Both, w: Refund.WorkerId, slot: Slot) {
    b.doomed == {} && w !in b.slots && w !in b.refund.live && slot !in b.slots.Values && Runs(b.queue, slot)
  }

  lemma Enters(d: Deployment, keys: Payloads, b: Both, w: Refund.WorkerId, slot: Slot) returns (t: Both)
    requires Reaches(d, keys, b) && Ready(b, w, slot)
    ensures Reaches(d, keys, t) && t == b.(refund := t.refund, slots := b.slots[w := slot])
    ensures t.refund == b.refund.(
      live := b.refund.live[w := Refund.Delivery(keys(slot.m), Refund.WithRefund, Refund.Reading)])
  {
    var e := Begins(w, slot, Refund.WithRefund);
    Then(d, keys, b, e);
    t := Next(d, keys, b, e);
  }

  /** A delivery that finds no marker, up to the point where it has read the document it will write back. */
  lemma Opens(d: Deployment, keys: Payloads, b: Both, w: Refund.WorkerId, slot: Slot) returns (t: Both)
    requires Reaches(d, keys, b) && Ready(b, w, slot) && Refund.MarkerOf(b.refund.docs, keys(slot.m)) == None
    ensures Reaches(d, keys, t) && t == b.(refund := t.refund, slots := b.slots[w := slot])
    ensures
      var snapshot := Refund.DocOf(b.refund.docs, keys(slot.m).order);
      t.refund == b.refund.(
        live := b.refund.live[
          w := Refund.Delivery(keys(slot.m), Refund.WithRefund, Refund.EditWrite(Refund.Mark, snapshot))])
  {
    var u := Enters(d, keys, b, w, slot);
    u := Calls(d, keys, u, Refund.ReadMarker(w));
    t := Calls(d, keys, u, Refund.ReadDoc(w));
  }

  /** It writes its mark, and the supplier accepts its request. */
  lemma Files(d: Deployment, keys: Payloads, b: Both, w: Refund.WorkerId) returns (t: Both)
    requires Reaches(d, keys, b) && b.doomed == {} && w in b.refund.live
    requires b.refund.live[w].phase.EditWrite? && b.refund.live[w].phase.edit.Mark?
    ensures Reaches(d, keys, t) && t == b.(refund := t.refund)
    ensures
      var r, u := b.refund, b.refund.live[w];
      t.refund == r.(
        docs := r.docs[u.key.order := Refund.Edited(u.phase.snapshot, u.key.refund, Refund.Mark)],
        live := r.live[w := u.(phase := Refund.Calling(true))], filed := Refund.Bumped(r.filed, u.key))
  {
    t := Calls(d, keys, b, Refund.WriteDoc(w, true, true));
    t := Calls(d, keys, t, Refund.Accept(w));
  }

  /** Two refunds of one supplier order. */
  function TwoRefunds(m: Sqs.MessageId): Refund.Key {
    if m == 0 then Refund.Key("o", "r") else Refund.Key("o", "s")
  }

  /** A process that polls. */
  const POLLS := Sqs.Consumer(false, Sqs.Polling)

  /** Messages 0 and 1 are sent, and process 0 is launched. */
  lemma Sent(d: Deployment) returns (b: Both)
    requires d.processes >= 1
    ensures Reaches(d, TwoRefunds, b)
    ensures b == IDLE.(queue := Sqs.Service(
      map[0 := Sqs.Message(true, 0, Sqs.Visible), 1 := Sqs.Message(true, 0, Sqs.Visible)], map[0 := POLLS], [], {}))
  {
    assert Legal(d, TwoRefunds, []) && Run(d, TwoRefunds, []) == IDLE;
    b := Moves(d, TwoRefunds, IDLE, Sqs.Send(0, true));
    b := Moves(d, TwoRefunds, b, Sqs.Send(1, true));
    b := Moves(d, TwoRefunds, b, Sqs.Launch(0));
  }

  /** Message 0 has a handler in process 0, message 1 one in process `c`. */
  ghost predicate BothRun(d: Deployment, b: Both, c: Sqs.ConsumerId) {
    && Reaches(d, TwoRefunds, b) && b == IDLE.(queue := b.queue)
    && Runs(b.queue, Slot(0, 0, 1)) && Runs(b.queue, Slot(c, 1, 1)) && |b.queue.consumers| <= d.processes
    && 0 in b.queue.messages && b.queue.messages[0] == Sqs.Message(true, 1, Sqs.Hidden)
  }

  /** Process `c` is about to begin a handler on the first receive of `m`. */
  predicate Waits(s: Sqs.Service, c: Sqs.ConsumerId, m: Sqs.MessageId) {
    Sqs.InPhase(s, c, m, Sqs.Waiting) && Sqs.Held(s, c, m) == Sqs.Job(1, true, Sqs.Waiting)
  }

  lemma BothBegin(d: Deployment, b: Both, c: Sqs.ConsumerId) returns (t: Both)
    requires Reaches(d, TwoRefunds, b) && b == IDLE.(queue := b.queue)
    requires Waits(b.queue, 0, 0) && Waits(b.queue, c, 1) && |b.queue.consumers| <= d.processes
    requires 0 in b.queue.messages && b.queue.messages[0] == Sqs.Message(true, 1, Sqs.Hidden)
    ensures BothRun(d, t, c)
  {
    var u := StartsHandler(d, TwoRefunds, b, 0, 0);
    assert Waits(u.queue, c, 1);
    t := StartsHandler(d, TwoRefunds, u, c, 1);
    assert Runs(t.queue, Slot(0, 0, 1));
    assert t.queue.consumers.Keys == b.queue.consumers.Keys;
    assert |t.queue.consumers| == |t.queue.consumers.Keys| && |b.queue.consumers| == |b.queue.consumers.Keys|;
  }

  lemma OneProcessRunsBoth(d: Deployment) returns (b: Both)
    requires d.processes >= 1 && d.queue.BatchSize() >= 2 && d.queue.redriveAfter >= 1
    ensures BothRun(d, b, 0)
  {
    b := Sent(d);
    b := TakesUp(d, TwoRefunds, b, 0, {0, 1});
    b := BothBegin(d, b, 0);
  }

  lemma TwoProcessesRun(d: Deployment) returns (b: Both)
    requires d.processes >= 2 && d.queue.redriveAfter >= 1
    ensures BothRun(d, b, 1)
  {
    b := Sent(d);
    b := Moves(d, TwoRefunds, b, Sqs.Launch(1));
    b := TakesUp(d, TwoRefunds, b, 0, {0});
    b := TakesUp(d, TwoRefunds, b, 1, {1});
    b := BothBegin(d, b, 1);
  }

  const REFUND := Refund.Key("o", "r")

  /** A second delivery of message 0 finds no marker, although a request was accepted. */
  lemma FilesAgain(d: Deployment, b: Both, w: Refund.WorkerId)
    requires Reaches(d, TwoRefunds, b) && Ready(b, w, Slot(0, 0, 2))
    requires Refund.MarkerOf(b.refund.docs, REFUND) == None && Refund.Count(b.refund.filed, REFUND) == 1
    ensures !AtMostOnce(d)
  {
    var t := Opens(d, TwoRefunds, b, w, Slot(0, 0, 2));
    t := Files(d, TwoRefunds, t, w);
    assert Refund.Count(t.refund.filed, REFUND) == 2;
    var run :| Legal(d, TwoRefunds, run) && Run(d, TwoRefunds, run) == t;
  }

  /** Both deliveries have read the document, without marks, that they will write back. */
  lemma BothOpen(d: Deployment, b: Both, c: Sqs.ConsumerId) returns (t: Both)
    requires BothRun(d, b, c)
    ensures Reaches(d, TwoRefunds, t) && t == b.(refund := t.refund, slots := map[0 := Slot(0, 0, 1), 1 := Slot(c, 1, 1)])
    ensures t.refund == Refund.IDLE.(live := map[
      0 := Refund.Delivery(REFUND, Refund.WithRefund, Refund.EditWrite(Refund.Mark, map[])),
      1 := Refund.Delivery(TwoRefunds(1), Refund.WithRefund, Refund.EditWrite(Refund.Mark, map[]))])
  {
    var u := Opens(d, TwoRefunds, b, 0, Slot(0, 0, 1));
    t := Opens(d, TwoRefunds, u, 1, Slot(c, 1, 1));
  }

  /** The second refund's mark drops that of the first, whose request was accepted. */
  lemma LosesMarker(d: Deployment, b: Both, c: Sqs.ConsumerId) returns (t: Both)
    requires BothRun(d, b, c)
    ensures Reaches(d, TwoRefunds, t) && t == b.(refund := t.refund, slots := map[0 := Slot(0, 0, 1), 1 := Slot(c, 1, 1)])
    ensures t.refund == Refund.System(
      map["o" := map["s" := Refund.InProgress]],
      map[0 := Refund.Delivery(REFUND, Refund.WithRefund, Refund.Calling(true)),
          1 := Refund.Delivery(TwoRefunds(1), Refund.WithRefund, Refund.Calling(false))], map[REFUND := 1], map[], {})
  {
    var u := BothOpen(d, b, c);
    u := Files(d, TwoRefunds, u, 0);
    t := Calls(d, TwoRefunds, u, Refund.WriteDoc(1, true, true));
  }

  lemma Dies(d: Deployment, b: Both, w: Refund.WorkerId) returns (t: Both)
    requires Reaches(d, TwoRefunds, b) && w in b.refund.live && w in b.slots
    requires b.refund.live[w].phase.Calling?
    ensures Reaches(d, TwoRefunds, t) && t == b.(refund := t.refund, doomed := b.doomed + {b.slots[w].c})
    ensures t.refund == b.refund.(live := b.refund.live - {w}, orphans := t.refund.orphans)
  {
    t := Next(d, TwoRefunds, b, Call(Refund.Die(w)));
    Then(d, TwoRefunds, b, Call(Refund.Die(w)));
  }

  /** Then the first process dies, with all its deliveries ... */
  lemma FirstDies(d: Deployment, b: Both, c: Sqs.ConsumerId) returns (t: Both)
    requires BothRun(d, b, c)
    ensures Reaches(d, TwoRefunds, t) && t == b.(refund := t.refund, slots := t.slots, doomed := {0})
    ensures t.slots == map[0 := Slot(0, 0, 1), 1 := Slot(c, 1, 1)]
    ensures t.refund.docs == map["o" := map["s" := Refund.InProgress]] && t.refund.filed == map[REFUND := 1]
    ensures t.refund.live.Keys == if c == 0 then {} else {1}
  {
    var u := LosesMarker(d, b, c);
    t := Dies(d, u, 0);
    if c == 0 { t := Dies(d, t, 1); }
  }

  /** ... and the first refund is delivered again. */
  lemma TwoHandlersFileTwice(d: Deployment, b: Both, c: Sqs.ConsumerId)
    requires BothRun(d, b, c) && d.queue.redriveAfter >= 2
    ensures !AtMostOnce(d)
  {
    var u := FirstDies(d, b, c);
    var t := RunsAgain(d, TwoRefunds, u, Slot(0, 0, 1));
    FilesAgain(d, t, 2);
  }

  /** Message 0 has a handler in process 0. */
  lemma OneRun(d: Deployment) returns (t: Both)
    requires d.processes >= 1 && d.queue.redriveAfter >= 1
    ensures Reaches(d, TwoRefunds, t) && t == IDLE.(queue := t.queue)
    ensures Runs(t.queue, Slot(0, 0, 1)) && |t.queue.consumers| <= d.processes
    ensures 0 in t.queue.messages && t.queue.messages[0] == Sqs.Message(true, 1, Sqs.Hidden)
  {
    var b := Sent(d);
    b := TakesUp(d, TwoRefunds, b, 0, {0});
    assert Waits(b.queue, 0, 0);
    t := StartsHandler(d, TwoRefunds, b, 0, 0);
  }

  /** ... whose request is accepted. */
  lemma OneFiles(d: Deployment, b: Both) returns (t: Both)
    requires Reaches(d, TwoRefunds, b) && b == IDLE.(queue := b.queue) && Runs(b.queue, Slot(0, 0, 1))
    ensures Reaches(d, TwoRefunds, t) && t == b.(refund := t.refund, slots := map[0 := Slot(0, 0, 1)])
    ensures t.refund == Refund.System(
      map["o" := map["r" := Refund.InProgress]],
      map[0 := Refund.Delivery(REFUND, Refund.WithRefund, Refund.Calling(true))], map[REFUND := 1], map[], {})
  {
    var u := Opens(d, TwoRefunds, b, 0, Slot(0, 0, 1));
    t := Files(d, TwoRefunds, u, 0);
  }

  /** A call that filed the refund throws: the mark is cleared, and the next delivery files again. */
  lemma ThrownCallFilesTwice(d: Deployment)
    requires d.processes >= 1 && d.queue.redriveAfter >= 2 && d.thrownCallMayHaveFiled
    ensures !AtMostOnce(d)
  {
    var t := OneRun(d);
    t := OneFiles(d, t);
    t := Calls(d, TwoRefunds, t, Refund.CallThrows(0));
    t := Calls(d, TwoRefunds, t, Refund.ReadDoc(0));
    t := Calls(d, TwoRefunds, t, Refund.WriteDoc(0, true, true));
    t := RunsAgain(d, TwoRefunds, t, Slot(0, 0, 1));
    FilesAgain(d, t, 1);
  }

  /**
   On a queue that allows two receives, the supplier accepts each refund at most once, over every run of
   the queue, its processes and their calls, exactly when there is one process, it takes one message at
   a time, and a call that throws has filed nothing. Leases do not matter.
   */
  lemma AtMostOnceIff(d: Deployment)
    requires d.processes >= 1 && d.queue.redriveAfter >= 2
    ensures AtMostOnce(d) <==> d.processes == 1 && d.queue.concurrency <= 1 && !d.thrownCallMayHaveFiled
  {
    if d.thrownCallMayHaveFiled {
      ThrownCallFilesTwice(d);
    } else if d.processes >= 2 {
      var b := TwoProcessesRun(d);
      TwoHandlersFileTwice(d, b, 1);
    } else if d.queue.concurrency >= 2 {
      var b := OneProcessRunsBoth(d);
      TwoHandlersFileTwice(d, b, 0);
    } else {
      Refund.AtMostOnceIff(d.Apart());
      forall keys, run, key: Refund.Key | Legal(d, keys, run)
        ensures Refund.Count(Run(d, keys, run).refund.filed, key) <= 1
      {
        CallsApart(d, keys, run);
      }
    }
  }
}
