/**
 The status of one sync job under several writers at once. The guarded write reads the status and
 then writes by id alone, so the guard of one writer can be out of date when its write is made.
 The writers are a system of steps, one for each awaited call.
 */
module JobStatus {
  import opened Options
  import Jobs = ProductSync

  /** The delivery of one receive of the job's message, or other code that sets the status. */
  datatype Writer = Attempt(receive: nat, final: bool) | Other(id: nat)

  /** Where a writer is, between two awaited calls. */
  datatype Stage = Asking | Reading(status: Jobs.Status) | Writing(status: Jobs.Status) | Working | Over

  /** `settled` is history: the first terminal status the job ever had. */
  datatype System = System(status: Jobs.Status, settled: Option<Jobs.Status>, writers: map<Writer, Stage>)

  /** Whether a delivery may begin beside another one, and whether other writes may run beside anything. */
  datatype Scope = Scope(deliveriesOverlap: bool, othersOverlap: bool)

  datatype Action =
    | Deliver(w: Writer)
    | Mark(w: Writer, status: Jobs.Status)
    | Ask(w: Writer, ok: bool)
    | Read(w: Writer, ok: bool)
    | Write(w: Writer, committed: bool)
    | Settle(w: Writer, status: Jobs.Status)
    | GiveUp(w: Writer)
    | Die(w: Writer, committed: bool)

  const START := System(Jobs.Pending, None, map[])

  predicate Live(s: System, w: Writer) { w in s.writers && s.writers[w] != Over }

  /** Nobody's work is overlapped by what begins, other than as the scope allows. */
  ghost predicate MayBegin(scope: Scope, s: System, w: Writer) {
    && w !in s.writers
    && forall v | Live(s, v) :: if w.Attempt? && v.Attempt? then scope.deliveriesOverlap else scope.othersOverlap
  }

  ghost predicate Enabled(scope: Scope, s: System, a: Action) {
    match a
    case Deliver(w) => w.Attempt? && MayBegin(scope, s, w)
    case Mark(w, _) => w.Other? && MayBegin(scope, s, w)
    case Ask(w, _) => Live(s, w) && s.writers[w].Asking?
    case Read(w, _) => Live(s, w) && s.writers[w].Reading?
    case Write(w, _) => Live(s, w) && s.writers[w].Writing?
    case Settle(w, status) =>
      Live(s, w) && s.writers[w].Working? && (status == Jobs.Completed || (status == Jobs.Failed && w.Attempt? && w.final))
    case GiveUp(w) => Live(s, w) && s.writers[w].Working? && w.Attempt? && !w.final
    case Die(w, _) => Live(s, w)
  }

  function Put(s: System, w: Writer, stage: Stage): System {
    s.(writers := s.writers[w := stage])
  }

  function Written(s: System, status: Jobs.Status): System {
    s.(status := status, settled := if s.settled.None? && Jobs.Terminal(status) then Some(status) else s.settled)
  }

  /** The guarded write swallows its errors: a delivery that has marked its job goes to work, all else is done. */
  function After(w: Writer, status: Jobs.Status): Stage {
    if w.Attempt? && status == Jobs.Processing then Working else Over
  }

  function Next(scope: Scope, s: System, a: Action): System
    requires Enabled(scope, s, a)
  {
    match a
    case Deliver(w) => Put(s, w, Asking)
    case Mark(w, status) => Put(s, w, Reading(status))
    case Ask(w, ok) => Put(s, w, if ok && !Jobs.Terminal(s.status) then Reading(Jobs.Processing) else Over)
    case Read(w, ok) =>
      var status := s.writers[w].status;
      Put(s, w, if ok && !Jobs.Terminal(s.status) then Writing(status) else After(w, status))
    case Write(w, committed) =>
      var status := s.writers[w].status;
      Put(if committed then Written(s, status) else s, w, After(w, status))
    case Settle(w, status) => Put(s, w, Reading(status))
    case GiveUp(w) => Put(s, w, Over)
    case Die(w, committed) =>
      var stage := s.writers[w];
      Put(if stage.Writing? && committed then Written(s, stage.status) else s, w, Over)
  }

  ghost predicate Legal(scope: Scope, s: System, acts: seq<Action>)
    decreases |acts|, 0
  {
    acts == [] ||
    (Legal(scope, s, acts[..|acts| - 1]) &&
     Enabled(scope, Run(scope, s, acts[..|acts| - 1]), acts[|acts| - 1]))
  }

  ghost function Run(scope: Scope, s: System, acts: seq<Action>): System
    requires Legal(scope, s, acts)
    decreases |acts|, 1
  {
    if acts == [] then s else Next(scope, Run(scope, s, acts[..|acts| - 1]), acts[|acts| - 1])
  }

  /** The first terminal status the job had is the one it has. */
  predicate StaysSettled(s: System) { s.settled.Some? ==> s.status == s.settled.value }

  ghost predicate AlwaysStaysSettled(scope: Scope) {
    forall acts | Legal(scope, START, acts) :: StaysSettled(Run(scope, START, acts))
  }

  // ----- Without overlap ---------------------------------------------------------------------------

  /** One writer at a time, its guard up to date. */
  ghost predicate Inv(s: System) {
    && (forall v, w | Live(s, v) && Live(s, w) :: v == w)
    && (forall w | Live(s, w) && s.writers[w].Writing? :: !Jobs.Terminal(s.status))
    && s.settled == if Jobs.Terminal(s.status) then Some(s.status) else None
  }

  lemma StepKeepsInv(s: System, a: Action)
    requires Inv(s) && Enabled(Scope(false, false), s, a)
    ensures Inv(Next(Scope(false, false), s, a))
  {
    var t := Next(Scope(false, false), s, a);
    forall v | Live(t, v) ensures v == a.w {
      if v != a.w { assert Live(s, v); }
    }
  }

  lemma {:induction false} RunKeepsInv(acts: seq<Action>)
    requires Legal(Scope(false, false), START, acts)
    ensures Inv(Run(Scope(false, false), START, acts))
    decreases |acts|
  {
    if acts != [] {
      RunKeepsInv(acts[..|acts| - 1]);
      StepKeepsInv(Run(Scope(false, false), START, acts[..|acts| - 1]), acts[|acts| - 1]);
    }
  }

  // ----- With overlap -------------------------------------------------------------------------------

  lemma Then(scope: Scope, s: System, acts: seq<Action>, a: Action) returns (longer: seq<Action>)
    requires Legal(scope, s, acts) && Enabled(scope, Run(scope, s, acts), a)
    ensures longer == acts + [a] && Legal(scope, s, longer)
    ensures Run(scope, s, longer) == Next(scope, Run(scope, s, acts), a)
  {
    longer := acts + [a];
    assert longer[..|longer| - 1] == acts;
  }

  predicate NoneBegins(acts: seq<Action>) { forall i | 0 <= i < |acts| :: !acts[i].Deliver? }

  /** Some legal run in which no delivery begins goes from `s` to `t`. */
  ghost predicate GoesTo(scope: Scope, s: System, t: System) {
    exists acts :: Legal(scope, s, acts) && Run(scope, s, acts) == t && NoneBegins(acts)
  }

  lemma GoesOn(scope: Scope, s: System, t: System, a: Action)
    requires GoesTo(scope, s, t) && Enabled(scope, t, a) && !a.Deliver?
    ensures GoesTo(scope, s, Next(scope, t, a))
  {
    var acts :| Legal(scope, s, acts) && Run(scope, s, acts) == t && NoneBegins(acts);
    var longer := Then(scope, s, acts, a);
  }

  lemma GoesNowhere(scope: Scope, s: System)
    ensures GoesTo(scope, s, s)
  {
    assert Legal(scope, s, []) && Run(scope, s, []) == s;
  }

  /** What a guarded write that nobody disturbs does. */
  function Guarded(s: System, status: Jobs.Status, write: Jobs.Step): System {
    if write.Commits() && !Jobs.Terminal(s.status) then Written(s, status) else s
  }

  lemma RefusedWrite(scope: Scope, s: System, t: System, w: Writer, status: Jobs.Status, write: Jobs.Step)
    requires GoesTo(scope, s, Put(t, w, Reading(status))) && (Jobs.Terminal(t.status) || write == Jobs.Dies(false))
    ensures GoesTo(scope, s, Put(t, w, if write.Dies? then Over else After(w, status)))
  {
    var reading := Put(t, w, Reading(status));
    var a := if write.Dies? then Die(w, false) else Read(w, true);
    GoesOn(scope, s, reading, a);
    assert Next(scope, reading, a) == Put(t, w, if write.Dies? then Over else After(w, status));
  }

  lemma ReadOpen(scope: Scope, s: System, t: System, w: Writer, status: Jobs.Status)
    requires GoesTo(scope, s, Put(t, w, Reading(status))) && !Jobs.Terminal(t.status)
    ensures GoesTo(scope, s, Put(t, w, Writing(status)))
  {
    var reading := Put(t, w, Reading(status));
    GoesOn(scope, s, reading, Read(w, true));
    assert Next(scope, reading, Read(w, true)) == Put(t, w, Writing(status));
  }

  lemma OpenWrite(scope: Scope, s: System, t: System, w: Writer, status: Jobs.Status, write: Jobs.Step)
    requires GoesTo(scope, s, Put(t, w, Writing(status))) && !Jobs.Terminal(t.status) && write != Jobs.Dies(false)
    ensures GoesTo(scope, s, Put(Guarded(t, status, write), w, if write.Dies? then Over else After(w, status)))
  {
    var writing := Put(t, w, Writing(status));
    var last := if write.Dies? then Die(w, true) else Write(w, write.Commits());
    GoesOn(scope, s, writing, last);
    assert Next(scope, writing, last) == Put(Guarded(t, status, write), w, if write.Dies? then Over else After(w, status));
  }

  /** The two steps of a guarded write, undisturbed. */
  lemma GuardedWrite(scope: Scope, s: System, t: System, w: Writer, status: Jobs.Status, write: Jobs.Step)
    requires GoesTo(scope, s, Put(t, w, Reading(status)))
    ensures GoesTo(scope, s, Put(Guarded(t, status, write), w, if write.Dies? then Over else After(w, status)))
  {
    if Jobs.Terminal(t.status) || write == Jobs.Dies(false) {
      RefusedWrite(scope, s, t, w, status, write);
    } else {
      ReadOpen(scope, s, t, w, status);
      OpenWrite(scope, s, t, w, status, write);
    }
  }

  /** A delivery that begins on `s`, undisturbed up to its work. */
  lemma GetsToWork(scope: Scope, s: System, w: Writer, started: Jobs.Step)
    requires w.Attempt? && w !in s.writers && !Jobs.Terminal(s.status)
    ensures GoesTo(
      scope, Put(s, w, Asking), Put(Guarded(s, Jobs.Processing, started), w, if started.Dies? then Over else Working))
  {
    var asking := Put(s, w, Asking);
    GoesNowhere(scope, asking);
    GoesOn(scope, asking, asking, Ask(w, true));
    assert Next(scope, asking, Ask(w, true)) == Put(s, w, Reading(Jobs.Processing));
    GuardedWrite(scope, asking, s, w, Jobs.Processing, started);
  }

  /** ... and from there to its end, with a last status write. */
  lemma Settles(scope: Scope, s: System, t: System, w: Writer, status: Jobs.Status, write: Jobs.Step)
    requires w.Attempt? && GoesTo(scope, s, Put(t, w, Working))
    requires status == Jobs.Completed || (status == Jobs.Failed && w.final)
    ensures GoesTo(scope, s, Put(Guarded(t, status, write), w, Over))
  {
    var working := Put(t, w, Working);
    GoesOn(scope, s, working, Settle(w, status));
    assert Next(scope, working, Settle(w, status)) == Put(t, w, Reading(status));
    GuardedWrite(scope, s, t, w, status, write);
  }

  lemma Ends(scope: Scope, s: System, t: System, w: Writer, stage: Stage, a: Action)
    requires GoesTo(scope, s, Put(t, w, stage)) && !a.Deliver?
    requires Enabled(scope, Put(t, w, stage), a) && Next(scope, Put(t, w, stage), a) == Put(Put(t, w, stage), w, Over)
    ensures GoesTo(scope, s, Put(t, w, Over))
  {
    GoesOn(scope, s, Put(t, w, stage), a);
    assert Put(Put(t, w, stage), w, Over) == Put(t, w, Over);
  }

  /** The last status write of a delivery that got to work on an open job. */
  function LastWrite(d: Jobs.Delivery, flow: Jobs.Flow): Option<(Jobs.Status, Jobs.Step)> {
    if d.supplier.Dies? || (d.supplier.Ok? && flow == Jobs.Dead) then None
    else if d.supplier.Throws? || flow == Jobs.Aborted then (if d.final then Some((Jobs.Failed, d.recorded)) else None)
    else if d.counted.Dies? then None
    else Some((Jobs.Completed, d.completed))
  }

  lemma HandledStatus(w: Jobs.World, d: Jobs.Delivery)
    requires w.job.Some? && !Jobs.Settled(w.job) && d.valid && d.lookup.Ok?
    ensures
      var begun := if d.started.Commits() then Jobs.Processing else w.job.value.status;
      var last := LastWrite(d, Jobs.AllSynced(Jobs.Begun(w), d.items).flow);
      Jobs.Handled(w, d).0.job.value.status ==
        if !d.started.Dies? && last.Some? && last.value.1.Commits() then last.value.0 else begun
  {}

  /** A delivery that nobody disturbs leaves the status that its handler, run in one piece, leaves. */
  lemma DeliveryIsRun(scope: Scope, s: System, w: Writer, world: Jobs.World, d: Jobs.Delivery) returns (t: System)
    requires w.Attempt? && w !in s.writers && w.final == d.final && d.valid
    requires world.job.Some? && world.job.value.status == s.status
    ensures GoesTo(scope, Put(s, w, Asking), Put(t, w, Over))
    ensures t.writers == s.writers && t.status == Jobs.Handled(world, d).0.job.value.status
  {
    var asking := Put(s, w, Asking);
    GoesNowhere(scope, asking);
    t := s;
    if !d.lookup.Ok? || Jobs.Terminal(s.status) {
      Ends(scope, asking, s, w, Asking, if d.lookup.Dies? then Die(w, false) else Ask(w, d.lookup.Ok?));
      return;
    }
    GetsToWork(scope, s, w, d.started);
    HandledStatus(world, d);
    t := Guarded(s, Jobs.Processing, d.started);
    if d.started.Dies? { return; }
    var last := LastWrite(d, Jobs.AllSynced(Jobs.Begun(world), d.items).flow);
    if last.Some? {
      Settles(scope, asking, t, w, last.value.0, last.value.1);
      t := Guarded(t, last.value.0, last.value.1);
    } else {
      var thrown := d.supplier.Throws? || (d.supplier.Ok? && Jobs.AllSynced(Jobs.Begun(world), d.items).flow == Jobs.Aborted);
      Ends(scope, asking, t, w, Working, if thrown then GiveUp(w) else Die(w, false));
    }
  }

  // ----- Exactly when ------------------------------------------------------------------------------

  /** While `v` is about to write what it decided on an open job, another delivery completes the job. */
  lemma Unsettles(scope: Scope, s: System, v: Writer, w: Writer, status: Jobs.Status) returns (t: System)
    requires Live(s, v) && s.writers[v] == Writing(status) && status != Jobs.Completed
    requires w.Attempt? && w !in s.writers && !Jobs.Terminal(s.status) && s.settled.None?
    ensures GoesTo(scope, Put(s, w, Asking), t) && !StaysSettled(t)
  {
    var asking := Put(s, w, Asking);
    GetsToWork(scope, s, w, Jobs.Ok);
    var begun := Guarded(s, Jobs.Processing, Jobs.Ok);
    Settles(scope, asking, begun, w, Jobs.Completed, Jobs.Ok);
    var done := Put(Guarded(begun, Jobs.Completed, Jobs.Ok), w, Over);
    GoesOn(scope, asking, done, Write(v, true));
    t := Next(scope, done, Write(v, true));
  }

  lemma {:induction false} RunsJoin(scope: Scope, s: System, acts: seq<Action>, more: seq<Action>)
    requires Legal(scope, s, acts) && Legal(scope, Run(scope, s, acts), more)
    ensures Legal(scope, s, acts + more) && Run(scope, s, acts + more) == Run(scope, Run(scope, s, acts), more)
    decreases |more|
  {
    if more == [] {
      assert acts + more == acts;
    } else {
      var front, a := more[..|more| - 1], more[|more| - 1];
      RunsJoin(scope, s, acts, front);
      var longer := Then(scope, s, acts + front, a);
      assert acts + more == longer;
    }
  }

  lemma RunsOn(scope: Scope, s: System, acts: seq<Action>, t: System) returns (longer: seq<Action>)
    requires Legal(scope, s, acts) && GoesTo(scope, Run(scope, s, acts), t)
    ensures Legal(scope, s, longer) && Run(scope, s, longer) == t
  {
    var u := Run(scope, s, acts);
    var more :| Legal(scope, u, more) && Run(scope, u, more) == t && NoneBegins(more);
    RunsJoin(scope, s, acts, more);
    longer := acts + more;
  }

  /** A delivery reads an open job for its first status write. */
  lemma AboutToWrite(scope: Scope, s: System, v: Writer)
    requires v.Attempt? && v !in s.writers && !Jobs.Terminal(s.status)
    ensures GoesTo(scope, Put(s, v, Asking), Put(s, v, Writing(Jobs.Processing)))
  {
    var asking := Put(s, v, Asking);
    GoesNowhere(scope, asking);
    GoesOn(scope, asking, asking, Ask(v, true));
    assert Next(scope, asking, Ask(v, true)) == Put(s, v, Reading(Jobs.Processing));
    ReadOpen(scope, asking, s, v, Jobs.Processing);
  }

  /** A writer reads, a whole delivery completes the job, the writer writes. */
  lemma BadRun(scope: Scope, acts: seq<Action>, v: Writer, status: Jobs.Status)
    requires Legal(scope, START, acts) && Run(scope, START, acts) == Put(START, v, Writing(status))
    requires status != Jobs.Completed && (if v.Attempt? then scope.deliveriesOverlap else scope.othersOverlap)
    ensures !AlwaysStaysSettled(scope)
  {
    var s, w := Put(START, v, Writing(status)), Attempt(if v.Attempt? then v.receive + 1 else 1, false);
    var longer := Then(scope, START, acts, Deliver(w));
    var t := Unsettles(scope, s, v, w, status);
    longer := RunsOn(scope, START, longer, t);
  }

  lemma DeliveriesCollide(scope: Scope)
    requires scope.deliveriesOverlap
    ensures !AlwaysStaysSettled(scope)
  {
    var v := Attempt(1, false);
    var acts := Then(scope, START, [], Deliver(v));
    AboutToWrite(scope, START, v);
    acts := RunsOn(scope, START, acts, Put(START, v, Writing(Jobs.Processing)));
    BadRun(scope, acts, v, Jobs.Processing);
  }

  lemma OthersCollide(scope: Scope)
    requires scope.othersOverlap
    ensures !AlwaysStaysSettled(scope)
  {
    var v := Other(0);
    var acts := Then(scope, START, [], Mark(v, Jobs.Failed));
    GoesNowhere(scope, Put(START, v, Reading(Jobs.Failed)));
    ReadOpen(scope, Put(START, v, Reading(Jobs.Failed)), START, v, Jobs.Failed);
    acts := RunsOn(scope, START, acts, Put(START, v, Writing(Jobs.Failed)));
    BadRun(scope, acts, v, Jobs.Failed);
  }

  /**
   Over every interleaving a job keeps its first terminal status exactly when its deliveries do not
   overlap and no other status write overlaps them.
   */
  lemma StaysSettledIff(scope: Scope)
    ensures AlwaysStaysSettled(scope) <==> !scope.deliveriesOverlap && !scope.othersOverlap
  {
    if scope.deliveriesOverlap {
      DeliveriesCollide(scope);
    } else if scope.othersOverlap {
      OthersCollide(scope);
    } else {
      forall acts | Legal(scope, START, acts) ensures StaysSettled(Run(scope, START, acts)) {
        RunKeepsInv(acts);
      }
    }
  }
}
