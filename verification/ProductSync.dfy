/**
 The job that re-imports one chunk of products from their supplier: its status, its counters
 and the sync marks it leaves, over every sequence of deliveries of its message.
 */
module ProductSync {
  import opened Options
  import FinalAttempt
  import Sqs = SqsConsumer

  // ----- Outcomes ------------------------------------------------------------------------------

  /** What becomes of one awaited call: its write may have committed although no reply came. */
  datatype Step = Ok | Throws(committed: bool) | Dies(committed: bool)
  {
    predicate Commits() { Ok? || committed }
  }

  datatype Fetch = Data | Missing | FetchThrows | FetchDies

  /**
   One external id and what its calls meet: the supplier, the mapping's lookup and update, the
   import, and the failure note, with the second note that a failing first one leads to.
   */
  datatype Item = Item(id: string, fetch: Fetch, found: Step, saved: Step, imported: Step, noted: Step, again: Step)

  datatype Delivery = Delivery(
    valid: bool, attempt: nat, final: bool, lookup: Step, started: Step, supplier: Step, items: seq<Item>,
    counted: Step, completed: Step, recorded: Step)

  datatype Result = Acked | Threw | Died

  // ----- State ---------------------------------------------------------------------------------

  datatype Status = Pending | Processing | Paused | Completed | Failed | Cancelled

  datatype Job = Job(status: Status, success: nat, fail: nat, attempts: nat, error: bool)

  datatype Sync = Unsynced | Success | Failure

  /** `sync` is keyed by the ids that have a mapping to a product; `calls` counts supplier calls. */
  datatype World = World(job: Option<Job>, sync: map<string, Sync>, calls: nat)

  predicate Terminal(s: Status) { s == Completed || s == Failed || s == Cancelled }

  predicate Settled(job: Option<Job>) { job.Some? && Terminal(job.value.status) }

  /** A status write: refused once terminal, lost unless it commits, ignored without a row. */
  function StatusWritten(job: Option<Job>, status: Status, error: bool, write: Step): Option<Job> {
    if job.None? || !write.Commits() || Settled(job) then job
    else Some(job.value.(status := status, error := job.value.error || error))
  }

  function CountsWritten(job: Option<Job>, success: nat, fail: nat, write: Step): Option<Job> {
    if job.None? || !write.Commits() then job else Some(job.value.(success := success, fail := fail))
  }

  function AttemptsWritten(job: Option<Job>, attempts: nat, write: Step): Option<Job> {
    if job.None? || !write.Commits() then job else Some(job.value.(attempts := attempts, error := true))
  }

  // ----- The items -----------------------------------------------------------------------------

  datatype Flow = Going | Aborted | Dead

  datatype Progress = Progress(sync: map<string, Sync>, success: nat, fail: nat, calls: nat, flow: Flow)

  function Marked(sync: map<string, Sync>, id: string, mark: Sync): map<string, Sync> {
    if id in sync then sync[id := mark] else sync
  }

  function Noted(p: Progress, id: string, write: Step): Progress {
    var q := if write.Commits() then p.(sync := Marked(p.sync, id, Failure)) else p;
    match write
    case Ok => q
    case Throws(_) => q.(flow := Aborted)
    case Dies(_) => q.(flow := Dead)
  }

  /** The catch block of an item. */
  function Caught(p: Progress, id: string, write: Step): Progress {
    Noted(p.(fail := p.fail + 1), id, write)
  }

  function Synced(before: Progress, item: Item): Progress {
    var p := before.(calls := before.calls + 1);
    match item.fetch
    case FetchDies => p.(flow := Dead)
    case FetchThrows => Caught(p, item.id, item.noted)
    case Missing =>
      var q := Noted(p.(fail := p.fail + 1), item.id, item.noted);
      if q.flow == Aborted then Caught(q.(flow := Going), item.id, item.again) else q
    case Data =>
      if item.found.Dies? then p.(flow := Dead)
      else if item.found.Throws? || item.id !in p.sync then Caught(p, item.id, item.noted)
      else
        var q := if item.saved.Commits() then p.(sync := p.sync[item.id := Success]) else p;
        if item.saved.Dies? || (item.saved.Ok? && item.imported.Dies?) then q.(flow := Dead)
        else if item.saved.Throws? || item.imported.Throws? then Caught(q, item.id, item.noted)
        else q.(success := q.success + 1)
  }

  function AllSynced(p: Progress, items: seq<Item>): Progress
    decreases |items|
  {
    if items == [] || p.flow != Going then p else AllSynced(Synced(p, items[0]), items[1..])
  }

  // ----- One delivery --------------------------------------------------------------------------

  function GivenUp(w: World, d: Delivery): (World, Result) {
    (w.(job := if d.final then StatusWritten(w.job, Failed, true, d.recorded)
               else AttemptsWritten(w.job, d.attempt, d.recorded)),
     if d.recorded.Dies? then Died else Threw)
  }

  function Finished(w: World, success: nat, fail: nat, d: Delivery): (World, Result) {
    var counted := w.(job := CountsWritten(w.job, success, fail, d.counted));
    if d.counted.Dies? then (counted, Died)
    else (counted.(job := StatusWritten(counted.job, Completed, false, d.completed)),
          if d.completed.Dies? then Died else Acked)
  }

  function Begun(w: World): Progress { Progress(w.sync, 0, 0, w.calls, Going) }

  function Handled(w: World, d: Delivery): (World, Result) {
    if !d.valid || d.lookup.Throws? then (w, Threw)
    else if d.lookup.Dies? then (w, Died)
    else if Settled(w.job) then (w, Acked)
    else
      var started := w.(job := StatusWritten(w.job, Processing, false, d.started));
      if d.started.Dies? || d.supplier.Dies? then (started, Died)
      else if d.supplier.Throws? then GivenUp(started, d)
      else
        var p := AllSynced(Begun(w), d.items);
        var synced := started.(sync := p.sync, calls := p.calls);
        match p.flow
        case Dead => (synced, Died)
        case Aborted => GivenUp(synced, d)
        case Going => Finished(synced, p.success, p.fail, d)
  }

  /** Other code sets the status too, through the same guarded write. */
  datatype Event = Deliver(delivery: Delivery) | SetStatus(status: Status, error: bool, write: Step)

  function Next(w: World, e: Event): World {
    match e
    case Deliver(d) => Handled(w, d).0
    case SetStatus(status, error, write) => w.(job := StatusWritten(w.job, status, error, write))
  }

  function Run(w: World, events: seq<Event>): World
    decreases |events|
  {
    if events == [] then w else Run(Next(w, events[0]), events[1..])
  }

  // ----- The status machine ----------------------------------------------------------------------

  /** A settled job never changes again and causes no supplier call, no mark, no retry. */
  lemma {:induction false} SettledForGood(w: World, events: seq<Event>)
    requires Settled(w.job)
    ensures Run(w, events) == w
    ensures forall d: Delivery :: d.valid && d.lookup == Ok ==> Handled(w, d) == (w, Acked)
    decreases |events|
  {
    if events != [] { SettledForGood(w, events[1..]); }
  }

  /** The item's product is mapped, and every call up to its import goes through. */
  predicate Imports(sync: map<string, Sync>, item: Item) {
    item.id in sync && item.fetch == Data && item.found == item.saved == item.imported == Ok
  }

  /** One of the calls the item leads to, before any failure note, kills the worker. */
  predicate Kills(mapped: bool, item: Item) {
    || item.fetch == FetchDies
    || (item.fetch == Data && item.found.Dies?)
    || (item.fetch == Data && item.found == Ok && mapped && item.saved.Dies?)
    || (item.fetch == Data && item.found == item.saved == Ok && mapped && item.imported.Dies?)
  }

  /** The note that decides about a failed item: a not-found item gets a second one. */
  function LastNote(item: Item): Step {
    if item.fetch == Missing && item.noted.Throws? then item.again else item.noted
  }

  /** What an item makes of the loop, whatever came before it. */
  function Fate(sync: map<string, Sync>, item: Item): Flow {
    if Kills(item.id in sync, item) then Dead
    else if Imports(sync, item) || LastNote(item) == Ok then Going
    else if LastNote(item).Throws? then Aborted
    else Dead
  }

  /** The `k`-th item is the first that stops the loop. */
  predicate StopsAt(sync: map<string, Sync>, items: seq<Item>, k: nat) {
    k < |items| && Fate(sync, items[k]) != Going && forall i | 0 <= i < k :: Fate(sync, items[i]) == Going
  }

  lemma {:induction false} SyncedFate(p: Progress, item: Item)
    requires p.flow == Going
    ensures Synced(p, item).flow == Fate(p.sync, item) && Synced(p, item).sync.Keys == p.sync.Keys
  {}

  /**
   The loop goes through all items exactly when none kills the worker and every failed item's
   last note lands; else it ends with the fate of the first item that stops it.
   */
  lemma {:induction false} LoopFate(p: Progress, items: seq<Item>)
    requires p.flow == Going
    ensures AllSynced(p, items).flow == Going <==> forall i | 0 <= i < |items| :: Fate(p.sync, items[i]) == Going
    ensures forall k | 0 <= k < |items| && StopsAt(p.sync, items, k) :: AllSynced(p, items).flow == Fate(p.sync, items[k])
    decreases |items|
  {
    if items != [] {
      var q, rest := Synced(p, items[0]), items[1..];
      SyncedFate(p, items[0]);
      if q.flow == Going {
        LoopFate(q, rest);
        assert forall i | 0 < i < |items| :: items[i] == rest[i - 1];
        assert forall i | 0 <= i < |rest| :: rest[i] == items[i + 1];
        forall k | 0 <= k < |items| && StopsAt(p.sync, items, k)
          ensures AllSynced(p, items).flow == Fate(p.sync, items[k])
        {
          assert k > 0 && StopsAt(q.sync, rest, k - 1);
        }
      } else {
        assert AllSynced(q, rest) == q;
      }
    }
  }

  /** Every item is gone through: it is imported, or its failure is noted. */
  predicate GoesThrough(w: World, items: seq<Item>) {
    forall i | 0 <= i < |items| :: Fate(w.sync, items[i]) == Going
  }

  /** The first item that stops the loop does so by a note that throws. */
  ghost predicate NoteThrows(w: World, items: seq<Item>) {
    exists k: nat :: StopsAt(w.sync, items, k) && Fate(w.sync, items[k]) == Aborted
  }

  lemma {:induction false} FirstStop(sync: map<string, Sync>, items: seq<Item>) returns (k: nat)
    requires exists i :: 0 <= i < |items| && Fate(sync, items[i]) != Going
    ensures StopsAt(sync, items, k)
    decreases |items|
  {
    if Fate(sync, items[0]) != Going {
      k := 0;
    } else {
      var rest := items[1..];
      var i :| 0 <= i < |items| && Fate(sync, items[i]) != Going;
      assert rest[i - 1] == items[i];
      k := FirstStop(sync, rest);
      k := k + 1;
      assert forall j | 0 < j < |items| :: items[j] == rest[j - 1];
    }
  }

  lemma {:induction false} FlowIff(w: World, items: seq<Item>)
    ensures AllSynced(Begun(w), items).flow == Going <==> GoesThrough(w, items)
    ensures AllSynced(Begun(w), items).flow == Aborted <==> NoteThrows(w, items)
  {
    LoopFate(Begun(w), items);
    if AllSynced(Begun(w), items).flow == Aborted {
      var k := FirstStop(w.sync, items);
    }
  }

  /** The delivery gets as far as its work: no earlier call fails or kills the worker. */
  predicate Reached(d: Delivery) { d.valid && d.lookup == Ok && !d.started.Dies? }

  /**
   The status a delivery leaves an open job in, exactly. FAILED takes a final attempt with the
   supplier missing or a note that throws; COMPLETED takes every item gone through.
   */
  lemma {:induction false} StatusIff(w: World, d: Delivery)
    requires w.job.Some? && !Settled(w.job)
    ensures
      var u := Handled(w, d).0;
      && u.job.Some?
      && (u.job.value.status == Failed <==>
            Reached(d) && d.final && d.recorded.Commits() &&
            (d.supplier.Throws? || (d.supplier == Ok && NoteThrows(w, d.items))))
      && (u.job.value.status == Completed <==>
            Reached(d) && d.supplier == Ok && GoesThrough(w, d.items) && !d.counted.Dies? && d.completed.Commits())
      && u.job.value.status != Cancelled
  {
    FlowIff(w, d.items);
  }

  /**
   With the consumer's limit not below the queue's, a job is marked FAILED only by a running
   handler whose message no run of the queue delivers again.
   */
  lemma {:induction false} FailedIsFinal(
    cfg: Sqs.Config, acts: seq<Sqs.Action>, c: Sqs.ConsumerId, m: Sqs.MessageId, w: World, d: Delivery)
    requires cfg.maxReceiveCount >= cfg.redriveAfter
    requires Sqs.Legal(cfg, Sqs.EMPTY, acts) && Sqs.InPhase(Sqs.Run(cfg, Sqs.EMPTY, acts), c, m, Sqs.Running)
    requires d.final == FinalAttempt.Flag(cfg, Sqs.Run(cfg, Sqs.EMPTY, acts), c, m)
    requires w.job.Some? && !Settled(w.job) && Handled(w, d).0.job.value.status == Failed
    ensures FinalAttempt.NeverAgain(cfg, Sqs.Run(cfg, Sqs.EMPTY, acts), m)
  {
    StatusIff(w, d);
    FinalAttempt.JobIsBehind(cfg, acts, c, m);
    FinalAttempt.UsedUpIsOver(cfg, Sqs.Run(cfg, Sqs.EMPTY, acts), m);
  }

  /** An acknowledged delivery leaves its job settled exactly when it was, or the COMPLETED write landed. */
  lemma {:induction false} AckSettlesIff(w: World, d: Delivery)
    requires w.job.Some? && Handled(w, d).1 == Acked
    ensures Settled(Handled(w, d).0.job) <==> Settled(w.job) || d.completed.Commits()
  {}

  /** A delivery of an open job is acknowledged exactly when it gets through all its items and its last writes. */
  lemma {:induction false} AckIff(w: World, d: Delivery)
    requires !Settled(w.job)
    ensures Handled(w, d).1 == Acked <==>
      Reached(d) && d.supplier == Ok && GoesThrough(w, d.items) && !d.counted.Dies? && !d.completed.Dies?
  {
    FlowIff(w, d.items);
  }

  /** Everything that went through, and still the job stays open for good: the message is gone. */
  lemma {:induction false} LostCompletion()
    ensures
      var d := Delivery(true, 1, false, Ok, Ok, Ok, [], Ok, Throws(false), Ok);
      var w := World(Some(Job(Pending, 0, 0, 0, false)), map[], 0);
      var (u, result) := Handled(w, d);
      result == Acked && u.job.value.status == Processing
  {}

  // ----- The counters ------------------------------------------------------------------------------

  /** Items not found at the supplier whose failure note threw. */
  function NotesLost(items: seq<Item>): nat {
    if items == [] then 0
    else (if items[0].fetch == Missing && items[0].noted.Throws? then 1 else 0) + NotesLost(items[1..])
  }

  lemma {:induction false} CountsFrom(p: Progress, items: seq<Item>)
    requires p.flow == Going && AllSynced(p, items).flow == Going
    ensures
      var q := AllSynced(p, items);
      q.success + q.fail == p.success + p.fail + |items| + NotesLost(items) && q.calls == p.calls + |items|
    decreases |items|
  {
    if items != [] {
      var q := Synced(p, items[0]);
      var rest := items[1..];
      assert q.flow != Going ==> AllSynced(q, rest) == q;
      CountsFrom(q, items[1..]);
    }
  }

  lemma {:induction false} NoNotesLost(items: seq<Item>)
    ensures NotesLost(items) == 0 <==> forall i | 0 <= i < |items| :: !(items[i].fetch == Missing && items[i].noted.Throws?)
  {
    if items != [] {
      NoNotesLost(items[1..]);
      assert forall i | 0 <= i < |items[1..]| :: items[1..][i] == items[i + 1];
      assert forall i | 0 < i < |items| :: items[i] == items[1..][i - 1];
    }
  }

  /** The two counters of a finished chunk add up to its size exactly when no not-found note threw. */
  lemma {:induction false} CountsAddUpIff(w: World, items: seq<Item>)
    requires GoesThrough(w, items)
    ensures
      var p := AllSynced(Begun(w), items);
      p.success + p.fail == |items| <==>
        forall i | 0 <= i < |items| :: !(items[i].fetch == Missing && items[i].noted.Throws?)
  {
    FlowIff(w, items);
    CountsFrom(Begun(w), items);
    NoNotesLost(items);
  }

  /** A supplier product whose note threw twice is counted twice over. */
  lemma {:induction false} CountedTwice()
    ensures
      var item := Item("p", Missing, Ok, Ok, Ok, Throws(false), Ok);
      var p := AllSynced(Progress(map["p" := Unsynced], 0, 0, 0, Going), [item]);
      p.flow == Going && p.success == 0 && p.fail == 2
  {
    var item := Item("p", Missing, Ok, Ok, Ok, Throws(false), Ok);
    var p := Progress(map["p" := Unsynced], 0, 0, 0, Going);
    assert AllSynced(p, [item]) == AllSynced(Synced(p, item), [item][1..]);
  }

  /** What completing an open job records: its counters sum to the chunk's size and the notes lost. */
  lemma {:induction false} CompletedTotals(w: World, d: Delivery)
    requires w.job.Some? && !Settled(w.job) && d.counted.Commits()
    requires Handled(w, d).0.job.value.status == Completed
    ensures
      var job := Handled(w, d).0.job.value;
      job.success + job.fail == |d.items| + NotesLost(d.items)
  {
    CountsFrom(Begun(w), d.items);
  }

  /** The items that are imported. */
  function ImportedCount(sync: map<string, Sync>, items: seq<Item>): nat {
    if items == [] then 0 else (if Imports(sync, items[0]) then 1 else 0) + ImportedCount(sync, items[1..])
  }

  lemma ImportsSame(sync: map<string, Sync>, other: map<string, Sync>, item: Item)
    requires sync.Keys == other.Keys
    ensures Imports(sync, item) == Imports(other, item)
  {
    assert item.id in sync.Keys <==> item.id in other.Keys;
  }

  lemma {:induction false} ImportedCountSame(sync: map<string, Sync>, other: map<string, Sync>, items: seq<Item>)
    requires sync.Keys == other.Keys
    ensures ImportedCount(sync, items) == ImportedCount(other, items)
  {
    if items != [] {
      ImportsSame(sync, other, items[0]);
      ImportedCountSame(sync, other, items[1..]);
    }
  }

  lemma {:induction false} SuccessFrom(p: Progress, items: seq<Item>)
    requires p.flow == Going && AllSynced(p, items).flow == Going
    ensures AllSynced(p, items).success == p.success + ImportedCount(p.sync, items)
    decreases |items|
  {
    if items != [] {
      var q := Synced(p, items[0]);
      var rest := items[1..];
      assert q.flow != Going ==> AllSynced(q, rest) == q;
      SyncedFate(p, items[0]);
      SuccessFrom(q, rest);
      ImportedCountSame(p.sync, q.sync, rest);
    }
  }

  /** The counters a completed job records: the items imported, and all others with the notes lost. */
  lemma {:induction false} CompletedCounters(w: World, d: Delivery)
    requires w.job.Some? && !Settled(w.job) && d.counted.Commits()
    requires Handled(w, d).0.job.value.status == Completed
    ensures
      var job := Handled(w, d).0.job.value;
      && job.success == ImportedCount(w.sync, d.items)
      && job.fail == |d.items| - ImportedCount(w.sync, d.items) + NotesLost(d.items)
  {
    CompletedTotals(w, d);
    SuccessFrom(Begun(w), d.items);
  }

  // ----- The marks -----------------------------------------------------------------------------------

  lemma {:induction false} MarksFrom(p: Progress, items: seq<Item>, i: nat)
    requires p.flow == Going && AllSynced(p, items).flow == Going
    requires i < |items| && items[i].id in p.sync && forall j | i < j < |items| :: items[j].id != items[i].id
    ensures
      var q := AllSynced(p, items);
      items[i].id in q.sync && q.sync[items[i].id] == if Imports(p.sync, items[i]) then Success else Failure
    decreases |items|
  {
    var q := Synced(p, items[0]);
    var rest := items[1..];
    assert q.flow != Going ==> AllSynced(q, rest) == q;
    if i > 0 {
      MarksFrom(q, items[1..], i - 1);
    } else {
      forall j | 0 <= j < |items[1..]| ensures items[1..][j].id != items[0].id {
        assert items[1..][j] == items[j + 1];
      }
      OthersKeepMark(q, items[1..], items[0].id);
    }
  }

  lemma {:induction false} OthersKeepMark(p: Progress, items: seq<Item>, id: string)
    requires p.flow == Going && AllSynced(p, items).flow == Going
    requires id in p.sync && forall j | 0 <= j < |items| :: items[j].id != id
    ensures id in AllSynced(p, items).sync && AllSynced(p, items).sync[id] == p.sync[id]
    decreases |items|
  {
    if items != [] {
      var q := Synced(p, items[0]);
      var rest := items[1..];
      assert q.flow != Going ==> AllSynced(q, rest) == q;
      forall j | 0 <= j < |items[1..]| ensures items[1..][j].id != id { assert items[1..][j] == items[j + 1]; }
      OthersKeepMark(q, items[1..], id);
    }
  }

  /** A delivery that gets through its items leaves on each mapped product the mark of its last item. */
  lemma {:induction false} MarksMatch(w: World, d: Delivery, i: nat)
    requires !Settled(w.job) && Handled(w, d).1 == Acked
    requires i < |d.items| && d.items[i].id in w.sync
    requires forall j | i < j < |d.items| :: d.items[j].id != d.items[i].id
    ensures
      var u := Handled(w, d).0;
      d.items[i].id in u.sync && u.sync[d.items[i].id] == if Imports(w.sync, d.items[i]) then Success else Failure
  {
    AckIff(w, d);
    FlowIff(w, d.items);
    MarksFrom(Begun(w), d.items, i);
  }

  /** The loop up to the item that stops it, and that item. */
  lemma {:induction false} LoopSplits(p: Progress, items: seq<Item>, k: nat)
    requires p.flow == Going && StopsAt(p.sync, items, k)
    ensures
      var q := AllSynced(p, items[..k]);
      && q.flow == Going && q.calls == p.calls + k && q.sync.Keys == p.sync.Keys
      && AllSynced(p, items) == Synced(q, items[k])
    decreases k
  {
    var first := Synced(p, items[0]);
    SyncedFate(p, items[0]);
    if k == 0 {
      assert AllSynced(first, items[1..]) == first;
    } else {
      var rest := items[1..];
      assert forall i | 0 <= i < |rest| :: rest[i] == items[i + 1];
      forall item { SameFate(p.sync, first.sync, item); }
      assert StopsAt(first.sync, rest, k - 1);
      LoopSplits(first, rest, k - 1);
      assert items[..k][1..] == rest[..k - 1];
    }
  }

  lemma SameFate(sync: map<string, Sync>, other: map<string, Sync>, item: Item)
    requires sync.Keys == other.Keys
    ensures Fate(sync, item) == Fate(other, item)
  {
    assert item.id in sync.Keys <==> item.id in other.Keys;
  }

  /** The mark that an item which stops the loop leaves: its last note's, else that of its update, else the old one. */
  function StopMark(item: Item, mark: Sync): Sync {
    var updated := item.fetch == Data && item.found == Ok && (item.saved == Ok || item.saved.committed);
    var killed := Kills(true, item);
    if !killed && (item.noted.Commits() || (item.fetch == Missing && item.noted.Throws? && item.again.Commits())) then Failure
    else if updated then Success
    else mark
  }

  lemma StopMarkIs(p: Progress, item: Item)
    requires p.flow == Going && item.id in p.sync && Fate(p.sync, item) != Going
    ensures Synced(p, item).calls == p.calls + 1
    ensures item.id in Synced(p, item).sync && Synced(p, item).sync[item.id] == StopMark(item, p.sync[item.id])
  {}

  lemma StopKeepsMark(p: Progress, item: Item, id: string)
    requires p.flow == Going && id in p.sync && item.id != id
    ensures Synced(p, item).calls == p.calls + 1
    ensures id in Synced(p, item).sync && Synced(p, item).sync[id] == p.sync[id]
  {}

  /** What a delivery that got to work keeps of its loop, however it ends. */
  lemma WorkIsKept(w: World, d: Delivery)
    requires !Settled(w.job) && Reached(d) && d.supplier == Ok
    ensures
      var u, p := Handled(w, d).0, AllSynced(Begun(w), d.items);
      u.sync == p.sync && u.calls == p.calls
  {}

  /** Cut short at its `k`-th item, a delivery leaves the marks of the items before, and what that item got to write. */
  lemma {:induction false} MarksUpTo(w: World, d: Delivery, k: nat, i: nat)
    requires !Settled(w.job) && Reached(d) && d.supplier == Ok && StopsAt(w.sync, d.items, k)
    requires i <= k && d.items[i].id in w.sync && forall j | i < j <= k :: d.items[j].id != d.items[i].id
    requires i == k ==> forall j | 0 <= j < k :: d.items[j].id != d.items[k].id
    ensures
      var u := Handled(w, d).0;
      && d.items[i].id in u.sync && u.calls == w.calls + k + 1
      && u.sync[d.items[i].id] ==
           if i == k then StopMark(d.items[k], w.sync[d.items[k].id])
           else if Imports(w.sync, d.items[i]) then Success else Failure
  {
    WorkIsKept(w, d);
    LoopSplits(Begun(w), d.items, k);
    var q, before := AllSynced(Begun(w), d.items[..k]), d.items[..k];
    assert forall j | 0 <= j < k :: before[j] == d.items[j];
    if i < k {
      MarksFrom(Begun(w), before, i);
      StopKeepsMark(q, d.items[k], d.items[i].id);
    } else {
      OthersKeepMark(Begun(w), before, d.items[k].id);
      SameFate(w.sync, q.sync, d.items[k]);
      StopMarkIs(q, d.items[k]);
    }
  }

  /** The job stops for good or for a retry: the supplier is missing, or a note throws. */
  ghost predicate Thrown(w: World, d: Delivery) {
    Reached(d) && (d.supplier.Throws? || (d.supplier == Ok && NoteThrows(w, d.items)))
  }

  ghost predicate Through(w: World, d: Delivery) {
    Reached(d) && d.supplier == Ok && GoesThrough(w, d.items)
  }

  /** What one delivery of an open job leaves in the job's row besides its status, told from its items and calls. */
  ghost predicate RowLeft(w: World, u: World, d: Delivery)
    requires w.job.Some?
  {
    var before := w.job.value;
    var recorded, counted := d.recorded == Ok || d.recorded.committed, d.counted == Ok || d.counted.committed;
    && u.job.Some?
    && u.job.value.attempts == (if Thrown(w, d) && !d.final && recorded then d.attempt else before.attempts)
    && (u.job.value.error <==> before.error || (Thrown(w, d) && recorded))
    && u.job.value.success == (if Through(w, d) && counted then ImportedCount(w.sync, d.items) else before.success)
    && u.job.value.fail ==
         (if Through(w, d) && counted
          then |d.items| - ImportedCount(w.sync, d.items) + NotesLost(d.items) else before.fail)
  }

  lemma {:induction false} RowMeaning(w: World, d: Delivery)
    requires w.job.Some? && !Terminal(w.job.value.status)
    ensures RowLeft(w, Handled(w, d).0, d)
  {
    FlowIff(w, d.items);
    if GoesThrough(w, d.items) {
      SuccessFrom(Begun(w), d.items);
      CountsFrom(Begun(w), d.items);
    }
    RowByFlow(w, d);
  }

  lemma {:induction false} RowByFlow(w: World, d: Delivery)
    requires w.job.Some? && !Settled(w.job)
    ensures
      var u, before, p := Handled(w, d).0, w.job.value, AllSynced(Begun(w), d.items);
      var thrown := Reached(d) && (d.supplier.Throws? || (d.supplier == Ok && p.flow == Aborted));
      var through := Reached(d) && d.supplier == Ok && p.flow == Going;
      && u.job.Some?
      && u.job.value.attempts == (if thrown && !d.final && d.recorded.Commits() then d.attempt else before.attempts)
      && (u.job.value.error <==> before.error || (thrown && d.recorded.Commits()))
      && u.job.value.success == (if through && d.counted.Commits() then p.success else before.success)
      && u.job.value.fail == (if through && d.counted.Commits() then p.fail else before.fail)
  {}

  /** How the delivery ends, and the status it leaves when that is neither FAILED nor COMPLETED. */
  lemma {:induction false} ResultMeaning(w: World, d: Delivery)
    requires w.job.Some? && !Terminal(w.job.value.status)
    ensures
      var (u, result) := Handled(w, d);
      var begun := d.valid && d.lookup == Ok && (d.started == Ok || d.started.committed);
      && u.job.Some?
      && (u.job.value.status !in {Failed, Completed} ==>
            u.job.value.status == if begun then Processing else w.job.value.status)
      && (result == Threw <==> !d.valid || d.lookup.Throws? || (Thrown(w, d) && !d.recorded.Dies?))
      && (result == Acked <==> Through(w, d) && !d.counted.Dies? && !d.completed.Dies?)
  {
    FlowIff(w, d.items);
  }

  /** A delivery without a valid payload, or whose first lookup fails, changes nothing. */
  lemma {:induction false} NothingDone(w: World, d: Delivery)
    requires !d.valid || d.lookup != Ok
    ensures Handled(w, d) == (w, if d.valid && d.lookup.Dies? then Died else Threw)
  {}

  // ----- The consumer --------------------------------------------------------------------------------

  class ProductSyncConsumer {
    var job: Option<Job>
    var sync: map<string, Sync>
    var calls: nat

    constructor (w: World)
      ensures State() == w
    {
      job, sync, calls := w.job, w.sync, w.calls;
    }

    function State(): World
      reads this
    {
      World(job, sync, calls)
    }

    method UpdateJobStatus(status: Status, error: bool, write: Step)
      modifies this`job
      ensures job == StatusWritten(old(job), status, error, write)
    {
      if job.None? || !write.Commits() { return; }
      if Terminal(job.value.status) { return; }
      job := Some(job.value.(status := status, error := job.value.error || error));
    }

    method NoteFailure(id: string, write: Step) returns (flow: Flow)
      modifies this`sync
      ensures sync == if write.Commits() then Marked(old(sync), id, Failure) else old(sync)
      ensures flow == match write case Ok => Going case Throws(_) => Aborted case Dies(_) => Dead
    {
      if id in sync && write.Commits() { sync := sync[id := Failure]; }
      return match write case Ok => Going case Throws(_) => Aborted case Dies(_) => Dead;
    }

    /** What the try block of one item comes to. */
    method FetchAndImport(item: Item) returns (imported: bool, missing: bool, dead: bool)
      modifies this`sync, this`calls
      ensures calls == old(calls) + 1
      ensures dead <==>
        item.fetch == FetchDies || (item.fetch == Data && (item.found.Dies? || (item.found == Ok && item.id in old(sync)
        && (item.saved.Dies? || (item.saved == Ok && item.imported.Dies?)))))
      ensures !dead ==> (imported <==> Imports(old(sync), item)) && (missing <==> item.fetch == Missing)
      ensures sync ==
        if item.fetch == Data && item.found == Ok && item.id in old(sync) && item.saved.Commits()
        then old(sync)[item.id := Success] else old(sync)
    {
      imported, missing, dead := false, false, false;
      calls := calls + 1;
      if item.fetch == FetchDies { dead := true; return; }
      if item.fetch == FetchThrows { return; }
      if item.fetch == Missing { missing := true; return; }
      if item.found.Dies? { dead := true; return; }
      if item.found.Throws? || item.id !in sync { return; }
      if item.saved.Commits() { sync := sync[item.id := Success]; }
      if item.saved.Dies? { dead := true; return; }
      if item.saved.Throws? { return; }
      if item.imported.Dies? { dead := true; return; }
      imported := item.imported == Ok;
    }

    method SyncItems(items: seq<Item>) returns (successCount: nat, failCount: nat, flow: Flow)
      modifies this`sync, this`calls
      ensures Progress(sync, successCount, failCount, calls, flow) == AllSynced(old(Begun(State())), items)
    {
      successCount, failCount, flow := 0, 0, Going;
      ghost var whole := AllSynced(Begun(State()), items);
      var i := 0;
      while i < |items| && flow == Going
        invariant 0 <= i <= |items|
        invariant whole == AllSynced(Progress(sync, successCount, failCount, calls, flow), items[i..])
        decreases |items| - i
      {
        var item := items[i];
        ghost var before := Progress(sync, successCount, failCount, calls, flow);
        var imported, missing, dead := FetchAndImport(item);
        if dead {
          flow := Dead;
        } else if imported {
          successCount := successCount + 1;
        } else {
          failCount := failCount + 1;
          flow := NoteFailure(item.id, item.noted);
          if missing && flow == Aborted {
            failCount := failCount + 1;
            flow := NoteFailure(item.id, item.again);
          }
        }
        assert Progress(sync, successCount, failCount, calls, flow) == Synced(before, item);
        assert items[i..][1..] == items[i + 1..];
        i := i + 1;
      }
    }

    method GiveUp(d: Delivery) returns (result: Result)
      modifies this`job
      ensures (State(), result) == GivenUp(old(State()), d)
    {
      if d.final {
        UpdateJobStatus(Failed, true, d.recorded);
      } else if job.Some? && d.recorded.Commits() {
        job := Some(job.value.(attempts := d.attempt, error := true));
      }
      return if d.recorded.Dies? then Died else Threw;
    }

    method HandleProductSync(d: Delivery) returns (result: Result)
      modifies this
      ensures (State(), result) == Handled(old(State()), d)
      ensures old(job).Some? && !Terminal(old(job).value.status) ==> RowLeft(old(State()), State(), d)
    {
      if job.Some? && !Terminal(job.value.status) { RowMeaning(State(), d); }
      if !d.valid { return Threw; }
      if d.lookup.Throws? { return Threw; }
      if d.lookup.Dies? { return Died; }
      if job.Some? && Terminal(job.value.status) { return Acked; }
      UpdateJobStatus(Processing, false, d.started);
      if d.started.Dies? || d.supplier.Dies? { return Died; }
      if d.supplier.Throws? {
        result := GiveUp(d);
        return;
      }
      var successCount, failCount, flow := SyncItems(d.items);
      if flow == Dead { return Died; }
      if flow == Aborted {
        result := GiveUp(d);
        return;
      }
      if job.Some? && d.counted.Commits() {
        job := Some(job.value.(success := successCount, fail := failCount));
      }
      if d.counted.Dies? { return Died; }
      UpdateJobStatus(Completed, false, d.completed);
      return if d.completed.Dies? then Died else Acked;
    }
  }
}
