/** Queueing every imported product for a fresh sync, in jobs of at most fifty. */
module Resync {
  import opened Options
  import opened ProductSync

  const CHUNK_SIZE := 50

  /** A supplier and the external ids imported from it. */
  datatype Supplier = Supplier(name: string, ids: seq<string>)

  datatype Chunk = Chunk(supplier: string, ids: seq<string>)

  /** What becomes of a chunk: queued, no job row made, or a row whose enqueueing failed. */
  datatype Publish = Queued | NotCreated | NotQueued(marked: bool)

  /** A job row; `queued` tells whether its message is on the queue. */
  datatype JobRow = JobRow(chunk: Chunk, status: Status, queued: bool)

  datatype Totals = Totals(suppliersQueued: nat, jobsQueued: nat, productsQueued: nat)

  // ----- Chunks ----------------------------------------------------------------------------------

  function Min(a: nat, b: nat): nat { if a < b then a else b }

  function Chunks(supplier: string, ids: seq<string>): seq<Chunk>
    decreases |ids|
  {
    if ids == [] then []
    else
      var n := Min(CHUNK_SIZE, |ids|);
      [Chunk(supplier, ids[..n])] + Chunks(supplier, ids[n..])
  }

  function Plan(suppliers: seq<Supplier>): seq<Chunk> {
    if suppliers == [] then [] else Chunks(suppliers[0].name, suppliers[0].ids) + Plan(suppliers[1..])
  }

  /** The ids of the chunks in order, each with its supplier. */
  function Covered(chunks: seq<Chunk>): seq<(string, string)> {
    if chunks == [] then []
    else Tagged(chunks[0].supplier, chunks[0].ids) + Covered(chunks[1..])
  }

  function Tagged(supplier: string, ids: seq<string>): seq<(string, string)> {
    seq(|ids|, i requires 0 <= i < |ids| => (supplier, ids[i]))
  }

  function Imported(suppliers: seq<Supplier>): seq<(string, string)> {
    if suppliers == [] then [] else Tagged(suppliers[0].name, suppliers[0].ids) + Imported(suppliers[1..])
  }

  /** The sum of the suppliers' ids, and of their ids divided by fifty, rounded up. */
  function ProductCount(suppliers: seq<Supplier>): nat {
    if suppliers == [] then 0 else |suppliers[0].ids| + ProductCount(suppliers[1..])
  }

  function JobCount(suppliers: seq<Supplier>): nat {
    if suppliers == [] then 0 else (|suppliers[0].ids| + CHUNK_SIZE - 1) / CHUNK_SIZE + JobCount(suppliers[1..])
  }

  lemma {:induction false} ChunksOf(supplier: string, ids: seq<string>)
    ensures Covered(Chunks(supplier, ids)) == Tagged(supplier, ids)
    ensures |Chunks(supplier, ids)| == (|ids| + CHUNK_SIZE - 1) / CHUNK_SIZE
    ensures forall c | c in Chunks(supplier, ids) :: c.supplier == supplier && 1 <= |c.ids| <= CHUNK_SIZE
    decreases |ids|
  {
    if ids != [] {
      var n := Min(CHUNK_SIZE, |ids|);
      ChunksOf(supplier, ids[n..]);
      assert Chunks(supplier, ids)[1..] == Chunks(supplier, ids[n..]);
      assert Tagged(supplier, ids[..n]) + Tagged(supplier, ids[n..]) == Tagged(supplier, ids);
    }
  }

  /** All chunks of a supplier but the last are full: the `i`-th has the ids from 50 * i on. */
  lemma {:induction false} ChunkAt(supplier: string, ids: seq<string>, i: nat)
    requires 50 * i < |ids|
    ensures
      var end := if 50 * i + 50 < |ids| then 50 * i + 50 else |ids|;
      i < |Chunks(supplier, ids)| && Chunks(supplier, ids)[i] == Chunk(supplier, ids[50 * i..end])
    decreases i
  {
    var n := Min(CHUNK_SIZE, |ids|);
    if i > 0 {
      ChunkAt(supplier, ids[n..], i - 1);
      assert Chunks(supplier, ids)[1..] == Chunks(supplier, ids[n..]);
    }
  }

  lemma {:induction false} CoveredSplits(a: seq<Chunk>, b: seq<Chunk>)
    ensures Covered(a + b) == Covered(a) + Covered(b)
  {
    if a == [] {
      assert a + b == b;
    } else {
      assert (a + b)[1..] == a[1..] + b;
      CoveredSplits(a[1..], b);
    }
  }

  /**
   The jobs of a resync cover every imported id of every supplier, in order and once each, in
   non-empty chunks of at most fifty; there are as many as each supplier's ids over fifty, rounded up.
   */
  lemma {:induction false} PlanCovers(suppliers: seq<Supplier>)
    ensures Covered(Plan(suppliers)) == Imported(suppliers)
    ensures |Plan(suppliers)| == JobCount(suppliers)
    ensures |Imported(suppliers)| == ProductCount(suppliers)
    ensures forall c | c in Plan(suppliers) :: 1 <= |c.ids| <= CHUNK_SIZE
  {
    if suppliers != [] {
      PlanCovers(suppliers[1..]);
      ChunksOf(suppliers[0].name, suppliers[0].ids);
      CoveredSplits(Chunks(suppliers[0].name, suppliers[0].ids), Plan(suppliers[1..]));
    }
  }

  // ----- Publishing --------------------------------------------------------------------------------

  /** The rows made for the chunks from the `j`-th job on, and whether all were queued. */
  function Published(chunks: seq<Chunk>, outcome: nat -> Publish, j: nat): (r: (seq<JobRow>, bool))
    decreases |chunks|
  {
    if chunks == [] then ([], true)
    else
      match outcome(j)
      case NotCreated => ([], false)
      case NotQueued(marked) => ([JobRow(chunks[0], if marked then Failed else Pending, false)], false)
      case Queued =>
        var r := Published(chunks[1..], outcome, j + 1);
        ([JobRow(chunks[0], Pending, true)] + r.0, r.1)
  }

  /** The resync goes through exactly when every chunk was queued; each has then its own pending job. */
  lemma {:induction false} PublishedIff(chunks: seq<Chunk>, outcome: nat -> Publish, j: nat)
    ensures
      var r := Published(chunks, outcome, j);
      && (r.1 <==> forall n | j <= n < j + |chunks| :: outcome(n) == Queued)
      && (r.1 ==> |r.0| == |chunks|)
      && |r.0| <= |chunks|
      && (forall i | 0 <= i < |r.0| :: r.0[i].chunk == chunks[i])
    decreases |chunks|
  {
    if chunks != [] {
      var rest := chunks[1..];
      PublishedIff(rest, outcome, j + 1);
      assert forall i | 0 <= i < |rest| :: rest[i] == chunks[i + 1];
      assert (forall n | j <= n < j + |chunks| :: outcome(n) == Queued)
             <==> outcome(j) == Queued && forall n | j + 1 <= n < j + 1 + |rest| :: outcome(n) == Queued;
    }
  }

  /** When the `n`-th job fails to queue: all rows before it are queued, its own row is not, and none follows. */
  lemma {:induction false} PublishedUpTo(chunks: seq<Chunk>, outcome: nat -> Publish, j: nat, n: nat)
    requires j <= n < j + |chunks| && outcome(n) != Queued
    requires forall i | j <= i < n :: outcome(i) == Queued
    ensures
      var rows, k := Published(chunks, outcome, j).0, n - j;
      && |rows| == (if outcome(n) == NotCreated then k else k + 1)
      && (forall i | 0 <= i < k :: rows[i] == JobRow(chunks[i], Pending, true))
      && (outcome(n).NotQueued? ==> !rows[k].queued && (rows[k].status == Failed <==> outcome(n).marked))
    decreases n - j
  {
    if n > j {
      var rest := chunks[1..];
      PublishedUpTo(rest, outcome, j + 1, n);
      assert forall i | 0 <= i < |rest| :: rest[i] == chunks[i + 1];
    }
  }

  // ----- From the request to the counters -------------------------------------------------------------

  /** One job's completing delivery, on the state it found. */
  datatype Completion = Completion(before: World, delivery: Delivery)

  ghost predicate Completes(c: Completion, chunk: Chunk) {
    && c.before.job.Some? && !Settled(c.before.job)
    && |c.delivery.items| == |chunk.ids| && (forall i | 0 <= i < |chunk.ids| :: c.delivery.items[i].id == chunk.ids[i])
    && c.delivery.counted.Commits()
    && Handled(c.before, c.delivery).0.job.value.status == Completed
  }

  function Counted(c: Completion): nat
    requires c.before.job.Some?
  {
    var job := Handled(c.before, c.delivery).0.job.value;
    job.success + job.fail
  }

  ghost predicate AllComplete(cs: seq<Completion>, chunks: seq<Chunk>) {
    |cs| == |chunks| && forall i | 0 <= i < |chunks| :: Completes(cs[i], chunks[i])
  }

  function CountedTotal(cs: seq<Completion>): nat
    requires forall c | c in cs :: c.before.job.Some?
  {
    if cs == [] then 0 else Counted(cs[0]) + CountedTotal(cs[1..])
  }

  function LostTotal(cs: seq<Completion>): nat {
    if cs == [] then 0 else NotesLost(cs[0].delivery.items) + LostTotal(cs[1..])
  }

  lemma {:induction false} CountedCovers(cs: seq<Completion>, chunks: seq<Chunk>)
    requires AllComplete(cs, chunks)
    ensures forall c | c in cs :: c.before.job.Some?
    ensures CountedTotal(cs) == |Covered(chunks)| + LostTotal(cs)
    decreases |cs|
  {
    if cs != [] {
      assert Completes(cs[0], chunks[0]);
      CompletedTotals(cs[0].before, cs[0].delivery);
      forall i | 0 <= i < |cs[1..]| ensures Completes(cs[1..][i], chunks[1..][i]) {
        assert Completes(cs[i + 1], chunks[i + 1]);
      }
      CountedCovers(cs[1..], chunks[1..]);
    }
  }

  /**
   Once every job of a resync has completed, its counters add up to the products queued and the
   not-found notes lost: exactly to the products queued when no such note was lost.
   */
  lemma {:induction false} EndToEnd(suppliers: seq<Supplier>, cs: seq<Completion>)
    requires AllComplete(cs, Plan(suppliers))
    ensures forall c | c in cs :: c.before.job.Some?
    ensures CountedTotal(cs) == ProductCount(suppliers) + LostTotal(cs)
  {
    PlanCovers(suppliers);
    CountedCovers(cs, Plan(suppliers));
  }

  // ----- The service -----------------------------------------------------------------------------------

  class ProductSyncService {
    var jobs: seq<JobRow>

    constructor ()
      ensures jobs == []
    {
      jobs := [];
    }

    /** Makes the row and queues its message; a failed enqueueing marks the row and is thrown on. */
    method PublishJob(chunk: Chunk, outcome: Publish) returns (ok: bool)
      modifies this
      ensures ok <==> outcome == Queued
      ensures jobs == old(jobs) + match outcome
        case NotCreated => []
        case NotQueued(marked) => [JobRow(chunk, if marked then Failed else Pending, false)]
        case Queued => [JobRow(chunk, Pending, true)]
    {
      if outcome == NotCreated { return false; }
      var j := |jobs|;
      jobs := jobs + [JobRow(chunk, Pending, false)];
      if outcome == Queued {
        jobs := jobs[j := jobs[j].(queued := true)];
        return true;
      }
      if outcome.marked { jobs := jobs[j := jobs[j].(status := Failed)]; }
      return false;
    }

    method ResyncAll(suppliers: seq<Supplier>, outcome: nat -> Publish) returns (totals: Option<Totals>)
      modifies this
      ensures
        var r := Published(Plan(suppliers), outcome, 0);
        jobs == old(jobs) + r.0 && (totals.Some? <==> r.1)
      ensures totals.Some? ==> totals.value == Totals(|suppliers|, JobCount(suppliers), ProductCount(suppliers))
    {
      var jobsQueued, productsQueued := 0, 0;
      ghost var plan := Plan(suppliers);
      ghost var whole := Published(plan, outcome, 0);
      ghost var before := jobs;
      assert suppliers[0..] == suppliers && before + ([] + whole.0) == before + whole.0;
      for k := 0 to |suppliers|
        invariant |plan| == jobsQueued + |Plan(suppliers[k..])|
        invariant Remains(whole, before, jobs, Published(Plan(suppliers[k..]), outcome, jobsQueued))
        invariant productsQueued + ProductCount(suppliers[k..]) == ProductCount(suppliers)
      {
        var supplier := suppliers[k];
        ghost var rest := Plan(suppliers[k + 1..]);
        assert suppliers[k..][1..] == suppliers[k + 1..];
        productsQueued := productsQueued + |supplier.ids|;
        var i := 0;
        assert supplier.ids[0..] == supplier.ids;
        while i < |supplier.ids|
          invariant 0 <= i <= |supplier.ids|
          invariant |plan| == jobsQueued + |Chunks(supplier.name, supplier.ids[i..])| + |rest|
          invariant Remains(whole, before, jobs,
                            Published(Chunks(supplier.name, supplier.ids[i..]) + rest, outcome, jobsQueued))
        {
          var n := Min(i + CHUNK_SIZE, |supplier.ids|);
          var chunk := Chunk(supplier.name, supplier.ids[i..n]);
          ChunkStep(supplier, i, n, rest);
          ghost var was := jobs;
          var ok := PublishJob(chunk, outcome(jobsQueued));
          RemainsStep(whole, before, was, jobs, chunk,
                      Chunks(supplier.name, supplier.ids[n..]) + rest, outcome, jobsQueued);
          if !ok { return None; }
          jobsQueued := jobsQueued + 1;
          i := n;
        }
        assert Chunks(supplier.name, supplier.ids[i..]) + rest == rest;
      }
      PlanCovers(suppliers);
      return Some(Totals(|suppliers|, jobsQueued, productsQueued));
    }
  }

  /** What is still to be published completes what has been. */
  ghost predicate Remains(
    whole: (seq<JobRow>, bool), before: seq<JobRow>, jobs: seq<JobRow>, rest: (seq<JobRow>, bool))
  {
    before + whole.0 == jobs + rest.0 && whole.1 == rest.1
  }

  lemma {:induction false} ChunkStep(supplier: Supplier, i: nat, n: nat, rest: seq<Chunk>)
    requires i < |supplier.ids| && n == Min(i + CHUNK_SIZE, |supplier.ids|)
    ensures
      var later := Chunks(supplier.name, supplier.ids[n..]);
      && Chunks(supplier.name, supplier.ids[i..]) == [Chunk(supplier.name, supplier.ids[i..n])] + later
      && Chunks(supplier.name, supplier.ids[i..]) + rest == [Chunk(supplier.name, supplier.ids[i..n])] + (later + rest)
  {
    var ids := supplier.ids[i..];
    var m := Min(CHUNK_SIZE, |ids|);
    assert ids[..m] == supplier.ids[i..n] && ids[m..] == supplier.ids[n..];
  }

  lemma {:induction false} RemainsStep(
    whole: (seq<JobRow>, bool), before: seq<JobRow>, was: seq<JobRow>, jobs: seq<JobRow>, chunk: Chunk,
    later: seq<Chunk>, outcome: nat -> Publish, j: nat)
    requires Remains(whole, before, was, Published([chunk] + later, outcome, j))
    requires jobs == was + match outcome(j)
      case NotCreated => []
      case NotQueued(marked) => [JobRow(chunk, if marked then Failed else Pending, false)]
      case Queued => [JobRow(chunk, Pending, true)]
    ensures outcome(j) == Queued ==> Remains(whole, before, jobs, Published(later, outcome, j + 1))
    ensures outcome(j) != Queued ==> jobs == before + whole.0 && !whole.1
  {
    assert ([chunk] + later)[1..] == later;
    var r := Published(later, outcome, j + 1).0;
    assert was + ([JobRow(chunk, Pending, true)] + r) == was + [JobRow(chunk, Pending, true)] + r;
  }
}
