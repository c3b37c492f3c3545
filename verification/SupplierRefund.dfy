/**
 The supplier-refund job: a marker per (supplier order, refund) is persisted around a
 call to the supplier that must not be repeated. Every `await` of the handler is a step
 of its own, so that other deliveries, lost writes and dying workers can come between
 any two of them.
 */
module SupplierRefund {
  import opened Options

  type OrderId = string
  type RefundId = string
  type WorkerId = nat

  datatype Key = Key(order: OrderId, refund: RefundId)

  /** State of one refund's request; a refund never attempted has no entry. */
  datatype Marker = InProgress | Done(requested: bool)

  /** The `supplierRefundRequests` object inside one supplier order's `rawResponse`. */
  type Doc = map<RefundId, Marker>

  /** What the registry holds for the payload's supplier. */
  datatype Adapter = Missing | WithoutRefund | WithRefund

  /** A change to one entry. Each one reads the whole document and writes all of it back. */
  datatype Edit = Mark | Clear | Record(requested: bool)

  datatype Phase =
    | Reading
    | EditRead(edit: Edit)
    | EditWrite(edit: Edit, snapshot: Doc)
    | Calling(taken: bool)  // request sent; `taken` once the supplier has accepted it

  datatype Delivery = Delivery(key: Key, adapter: Adapter, phase: Phase)

  /**
   `filed` counts the requests the supplier accepted. `orphans` counts requests whose
   worker died before the supplier decided: they can still be accepted later.
   */
  datatype System = System(
    docs: map<OrderId, Doc>,
    live: map<WorkerId, Delivery>,
    filed: map<Key, nat>,
    orphans: map<Key, nat>,
    acked: set<Key>)

  datatype Action =
    | Deliver(w: WorkerId, key: Key, adapter: Adapter)
    | ReadMarker(w: WorkerId)
    | ReadDoc(w: WorkerId)
    | WriteDoc(w: WorkerId, commits: bool, replies: bool)
    | Accept(w: WorkerId)
    | AcceptOrphan(key: Key)
    | Answer(w: WorkerId, requested: bool)
    | CallThrows(w: WorkerId)
    | Die(w: WorkerId)  // the process stops, or a read throws: the delivery just ends

  /** Which deliveries the deployment keeps from overlapping. */
  datatype Scope = PerSupplierOrder | PerRefund | Unrestricted

  datatype Config = Config(scope: Scope, thrownCallMayHaveFiled: bool)

  const IDLE := System(map[], map[], map[], map[], {})

  function DocOf(docs: map<OrderId, Doc>, order: OrderId): Doc {
    if order in docs then docs[order] else map[]
  }

  function MarkerOf(docs: map<OrderId, Doc>, key: Key): Option<Marker> {
    var doc := DocOf(docs, key.order);
    if key.refund in doc then Some(doc[key.refund]) else None
  }

  function Count(m: map<Key, nat>, key: Key): nat {
    if key in m then m[key] else 0
  }

  function Bumped(m: map<Key, nat>, key: Key): map<Key, nat> {
    m[key := Count(m, key) + 1]
  }

  function Edited(doc: Doc, refund: RefundId, edit: Edit): Doc {
    match edit
    case Mark => doc[refund := InProgress]
    case Clear => doc - {refund}
    case Record(requested) => doc[refund := Done(requested)]
  }

  function With(s: System, w: WorkerId, phase: Phase): System
    requires w in s.live
  {
    s.(live := s.live[w := s.live[w].(phase := phase)])
  }

  function Without(s: System, w: WorkerId): System {
    s.(live := s.live - {w})
  }

  predicate MayDeliver(scope: Scope, s: System, key: Key) {
    match scope
    case PerSupplierOrder => forall w | w in s.live :: s.live[w].key.order != key.order
    case PerRefund => forall w | w in s.live :: s.live[w].key != key
    case Unrestricted => true
  }

  predicate Enabled(cfg: Config, s: System, a: Action) {
    match a
    case Deliver(w, key, _) => w !in s.live && MayDeliver(cfg.scope, s, key)
    case ReadMarker(w) => w in s.live && s.live[w].phase.Reading?
    case ReadDoc(w) => w in s.live && s.live[w].phase.EditRead?
    case WriteDoc(w, commits, replies) =>
      w in s.live && s.live[w].phase.EditWrite? && (replies ==> commits)
    case Accept(w) => w in s.live && s.live[w].phase == Calling(false)
    case AcceptOrphan(key) => Count(s.orphans, key) > 0
    case Answer(w, _) => w in s.live && s.live[w].phase.Calling?
    case CallThrows(w) =>
      w in s.live && s.live[w].phase.Calling? &&
      (s.live[w].phase.taken ==> cfg.thrownCallMayHaveFiled)
    case Die(w) => w in s.live
  }

  /** What the delivery does once it knows its marker. */
  function AfterMarker(s: System, w: WorkerId): System
    requires w in s.live
  {
    var d := s.live[w];
    match MarkerOf(s.docs, d.key)
    case Some(Done(_)) => Without(s, w).(acked := s.acked + {d.key})
    case Some(InProgress) => With(s, w, EditRead(Record(false)))
    case None =>
      match d.adapter
      case Missing => Without(s, w)
      case WithoutRefund => With(s, w, EditRead(Record(false)))
      case WithRefund => With(s, w, EditRead(Mark))
  }

  /** What the delivery does once its write came back. */
  function AfterWrite(s: System, w: WorkerId, edit: Edit, replies: bool): System
    requires w in s.live
  {
    match edit
    case Mark => if replies then With(s, w, Calling(false)) else Without(s, w)
    case Clear => Without(s, w)
    case Record(_) =>
      if replies then Without(s, w).(acked := s.acked + {s.live[w].key}) else Without(s, w)
  }

  function Next(cfg: Config, s: System, a: Action): System
    requires Enabled(cfg, s, a)
  {
    match a
    case Deliver(w, key, adapter) => s.(live := s.live[w := Delivery(key, adapter, Reading)])
    case ReadMarker(w) => AfterMarker(s, w)
    case ReadDoc(w) =>
      With(s, w, EditWrite(s.live[w].phase.edit, DocOf(s.docs, s.live[w].key.order)))
    case WriteDoc(w, commits, replies) =>
      var d := s.live[w];
      var written := s.docs[d.key.order := Edited(d.phase.snapshot, d.key.refund, d.phase.edit)];
      AfterWrite(if commits then s.(docs := written) else s, w, d.phase.edit, replies)
    case Accept(w) =>
      var key := s.live[w].key;
      With(s, w, Calling(true)).(filed := Bumped(s.filed, key))
    case AcceptOrphan(key) =>
      s.(orphans := s.orphans[key := Count(s.orphans, key) - 1],
         filed := Bumped(s.filed, key))
    case Answer(w, requested) => With(s, w, EditRead(Record(requested)))
    case CallThrows(w) => With(s, w, EditRead(Clear))
    case Die(w) =>
      var key := s.live[w].key;
      if s.live[w].phase == Calling(false)
      then Without(s, w).(orphans := Bumped(s.orphans, key))
      else Without(s, w)
  }

  /** `acts` can be taken one after the other from `s`. */
  predicate Legal(cfg: Config, s: System, acts: seq<Action>)
    decreases |acts|, 0
  {
    acts == [] ||
    (Legal(cfg, s, acts[..|acts| - 1]) &&
     Enabled(cfg, Run(cfg, s, acts[..|acts| - 1]), acts[|acts| - 1]))
  }

  function Run(cfg: Config, s: System, acts: seq<Action>): System
    requires Legal(cfg, s, acts)
    decreases |acts|, 1
  {
    if acts == [] then s else Next(cfg, Run(cfg, s, acts[..|acts| - 1]), acts[|acts| - 1])
  }

  // ----- The invariant ---------------------------------------------------------------

  /** Requests for `key` that were accepted or still may be. */
  function Committed(s: System, key: Key): nat {
    Count(s.filed, key) + Count(s.orphans, key)
  }

  ghost predicate PhaseOk(cfg: Config, s: System, d: Delivery) {
    match d.phase
    case Reading => true
    case EditRead(edit) => EditOk(cfg, s, d.key, edit)
    case EditWrite(edit, snapshot) =>
      EditOk(cfg, s, d.key, edit) && snapshot == DocOf(s.docs, d.key.order)
    case Calling(taken) =>
      MarkerOf(s.docs, d.key) == Some(InProgress) &&
      (!cfg.thrownCallMayHaveFiled ==> Committed(s, d.key) == if taken then 1 else 0)
  }

  /** A delivery rewrites only a marker that is not DONE, and unmarks only what was never filed. */
  ghost predicate EditOk(cfg: Config, s: System, key: Key, edit: Edit) {
    match edit
    case Mark => MarkerOf(s.docs, key) == None
    case Clear =>
      MarkerOf(s.docs, key) == Some(InProgress) &&
      (!cfg.thrownCallMayHaveFiled ==> Committed(s, key) == 0)
    case Record(_) => true
  }

  ghost predicate Inv(cfg: Config, s: System) {
    && (forall v, w | v in s.live && w in s.live && s.live[v].key.order == s.live[w].key.order :: v == w)
    && (forall w | w in s.live :: PhaseOk(cfg, s, s.live[w]))
    && (!cfg.thrownCallMayHaveFiled ==>
          forall key: Key :: Committed(s, key) <= 1 && (Committed(s, key) == 1 ==> MarkerOf(s.docs, key).Some?))
    && (forall key | key in s.acked :: MarkerOf(s.docs, key).Some? && MarkerOf(s.docs, key).value.Done?)
  }

  lemma EndKeepsInv(cfg: Config, s: System, w: WorkerId)
    requires Inv(cfg, s)
    ensures Inv(cfg, Without(s, w))
  {
    forall key: Key ensures Committed(Without(s, w), key) == Committed(s, key) {}
  }

  /** Another delivery may be under way as long as its order is free and its phase is right. */
  lemma JoinKeepsInv(cfg: Config, s: System, w: WorkerId, d: Delivery)
    requires Inv(cfg, s) && w !in s.live && PhaseOk(cfg, s, d)
    requires MayDeliver(PerSupplierOrder, s, d.key)
    ensures Inv(cfg, s.(live := s.live[w := d]))
  {
    var t := s.(live := s.live[w := d]);
    forall key: Key ensures Committed(t, key) == Committed(s, key) {}
  }

  lemma MoveKeepsInv(cfg: Config, s: System, w: WorkerId, phase: Phase)
    requires Inv(cfg, s) && w in s.live && PhaseOk(cfg, s, s.live[w].(phase := phase))
    ensures Inv(cfg, With(s, w, phase))
  {
    var d := s.live[w].(phase := phase);
    EndKeepsInv(cfg, s, w);
    JoinAgain(cfg, Without(s, w), w, d, s.live);
  }

  /** How one database call goes; a call that throws or outlives its worker may have committed. */
  datatype Fault = Fine | Throws(committed: bool) | Dies(committed: bool)
  {
    predicate Commits() { Fine? || committed }
  }

  function EditedDocs(docs: map<OrderId, Doc>, key: Key, edit: Edit, fault: Fault): map<OrderId, Doc> {
    if fault.Commits() then docs[key.order := Edited(DocOf(docs, key.order), key.refund, edit)] else docs
  }

  /** Reading a marker after an edit gives what the edit wrote, if it was committed; other markers stay. */
  lemma EditedMarker(docs: map<OrderId, Doc>, key: Key, edit: Edit, fault: Fault, k: Key)
    ensures MarkerOf(EditedDocs(docs, key, edit, fault), k) ==
      if k != key || !fault.Commits() then MarkerOf(docs, k)
      else if edit.Mark? then Some(InProgress)
      else if edit.Clear? then None
      else Some(Done(edit.requested))
  {}

  function WithEdit(s: System, key: Key, edit: Edit): System {
    s.(docs := EditedDocs(s.docs, key, edit, Fine))
  }

  /** An order nobody is working on may be edited, as long as the edit suits its marker. */
  lemma CommitKeepsInv(cfg: Config, s: System, key: Key, edit: Edit)
    requires Inv(cfg, s) && MayDeliver(PerSupplierOrder, s, key) && EditOk(cfg, s, key, edit)
    ensures Inv(cfg, WithEdit(s, key, edit))
  {
    var t := WithEdit(s, key, edit);
    forall w | w in t.live ensures PhaseOk(cfg, t, t.live[w]) {}
    forall k: Key | !cfg.thrownCallMayHaveFiled
      ensures Committed(t, k) <= 1 && (Committed(t, k) == 1 ==> MarkerOf(t.docs, k).Some?)
    {
      assert Committed(t, k) == Committed(s, k);
      EditedMarker(s.docs, key, edit, Fine, k);
    }
    forall k | k in t.acked ensures MarkerOf(t.docs, k).Some? && MarkerOf(t.docs, k).value.Done? {
      EditedMarker(s.docs, key, edit, Fine, k);
    }
  }

  lemma AckKeepsInv(cfg: Config, s: System, key: Key)
    requires Inv(cfg, s) && MarkerOf(s.docs, key).Some? && MarkerOf(s.docs, key).value.Done?
    ensures Inv(cfg, s.(acked := s.acked + {key}))
  {
    var t := s.(acked := s.acked + {key});
    forall k: Key ensures Committed(t, k) == Committed(s, k) {}
  }

  lemma WriteKeepsInv(cfg: Config, s: System, w: WorkerId, commits: bool, replies: bool)
    requires cfg.scope == PerSupplierOrder
    requires Inv(cfg, s) && Enabled(cfg, s, WriteDoc(w, commits, replies))
    ensures Inv(cfg, Next(cfg, s, WriteDoc(w, commits, replies)))
  {
    var d := s.live[w];
    var edit := d.phase.edit;
    assert PhaseOk(cfg, s, d);
    EndKeepsInv(cfg, s, w);
    var ended := Without(s, w);
    if commits {
      CommitKeepsInv(cfg, ended, d.key, edit);
      var written := ended.(docs := s.docs[d.key.order := Edited(d.phase.snapshot, d.key.refund, edit)]);
      if replies && edit.Record? {
        AckKeepsInv(cfg, written, d.key);
      } else if replies && edit.Mark? {
        assert !cfg.thrownCallMayHaveFiled ==> Committed(s, d.key) == 0 == Committed(written, d.key);
        JoinAgain(cfg, written, w, d.(phase := Calling(false)), s.live);
      }
    }
  }

  lemma AcceptKeepsInv(cfg: Config, s: System, w: WorkerId)
    requires cfg.scope == PerSupplierOrder
    requires Inv(cfg, s) && w in s.live && s.live[w].phase == Calling(false)
    ensures Inv(cfg, With(s, w, Calling(true)).(filed := Bumped(s.filed, s.live[w].key)))
  {
    var d, ended := s.live[w], Without(s, w);
    assert PhaseOk(cfg, s, d);
    EndKeepsInv(cfg, s, w);
    var t := ended.(filed := Bumped(s.filed, d.key));
    assert Inv(cfg, t) by {
      assert MayDeliver(PerSupplierOrder, ended, d.key);
      assert Committed(t, d.key) == Committed(s, d.key) + 1;
      CountsKeepInv(cfg, ended, t, d.key);
    }
    JoinAgain(cfg, t, w, d.(phase := Calling(true)), s.live);
  }

  lemma JoinAgain(cfg: Config, t: System, w: WorkerId, d: Delivery, live: map<WorkerId, Delivery>)
    requires Inv(cfg, t) && t.live == live - {w} && PhaseOk(cfg, t, d)
    requires MayDeliver(PerSupplierOrder, t, d.key)
    ensures Inv(cfg, t.(live := live[w := d]))
  {
    JoinKeepsInv(cfg, t, w, d);
    assert (live - {w})[w := d] == live[w := d];
  }

  /** Only the counts of `key` change, on an order nobody is working on or by moving an orphan. */
  lemma CountsKeepInv(cfg: Config, s: System, t: System, key: Key)
    requires Inv(cfg, s) && t == s.(filed := t.filed, orphans := t.orphans)
    requires forall k: Key | k != key :: Committed(t, k) == Committed(s, k)
    requires MayDeliver(PerSupplierOrder, s, key) || Committed(t, key) == Committed(s, key)
    requires !cfg.thrownCallMayHaveFiled && Committed(t, key) != Committed(s, key) ==>
               Committed(t, key) == 1 && MarkerOf(s.docs, key).Some?
    ensures Inv(cfg, t)
  {
    forall k: Key | !cfg.thrownCallMayHaveFiled
      ensures Committed(t, k) <= 1 && (Committed(t, k) == 1 ==> MarkerOf(t.docs, k).Some?)
    {
      assert Committed(s, k) <= 1 && (Committed(s, k) == 1 ==> MarkerOf(s.docs, k).Some?);
    }
    forall w | w in t.live ensures PhaseOk(cfg, t, t.live[w]) {
      assert PhaseOk(cfg, s, s.live[w]);
    }
  }

  lemma OrphanKeepsInv(cfg: Config, s: System, key: Key)
    requires Inv(cfg, s) && Enabled(cfg, s, AcceptOrphan(key))
    ensures Inv(cfg, Next(cfg, s, AcceptOrphan(key)))
  {
    var t := Next(cfg, s, AcceptOrphan(key));
    forall k: Key ensures Committed(t, k) == Committed(s, k) {}
    CountsKeepInv(cfg, s, t, key);
  }

  lemma DieKeepsInv(cfg: Config, s: System, w: WorkerId)
    requires cfg.scope == PerSupplierOrder
    requires Inv(cfg, s) && Enabled(cfg, s, Die(w))
    ensures Inv(cfg, Next(cfg, s, Die(w)))
  {
    EndKeepsInv(cfg, s, w);
    var d, ended := s.live[w], Without(s, w);
    assert PhaseOk(cfg, s, d);
    if d.phase == Calling(false) {
      assert Committed(ended, d.key) == Committed(s, d.key);
      CountsKeepInv(cfg, ended, Next(cfg, s, Die(w)), d.key);
    }
  }

  lemma StepKeepsInv(cfg: Config, s: System, a: Action)
    requires cfg.scope == PerSupplierOrder
    requires Inv(cfg, s) && Enabled(cfg, s, a)
    ensures Inv(cfg, Next(cfg, s, a))
  {
    match a
    case Deliver(w, key, adapter) => JoinKeepsInv(cfg, s, w, Delivery(key, adapter, Reading));
    case ReadMarker(w) =>
      EndKeepsInv(cfg, s, w);
      var d := s.live[w];
      match MarkerOf(s.docs, d.key) {
        case Some(Done(_)) => AckKeepsInv(cfg, Without(s, w), d.key);
        case Some(InProgress) => MoveKeepsInv(cfg, s, w, EditRead(Record(false)));
        case None =>
          if d.adapter.WithoutRefund? {
            MoveKeepsInv(cfg, s, w, EditRead(Record(false)));
          } else if d.adapter.WithRefund? {
            MoveKeepsInv(cfg, s, w, EditRead(Mark));
          }
      }
    case ReadDoc(w) =>
      assert PhaseOk(cfg, s, s.live[w]);
      MoveKeepsInv(cfg, s, w, EditWrite(s.live[w].phase.edit, DocOf(s.docs, s.live[w].key.order)));
    case WriteDoc(w, commits, replies) => WriteKeepsInv(cfg, s, w, commits, replies);
    case Answer(w, requested) => MoveKeepsInv(cfg, s, w, EditRead(Record(requested)));
    case CallThrows(w) =>
      assert PhaseOk(cfg, s, s.live[w]);
      MoveKeepsInv(cfg, s, w, EditRead(Clear));
    case Accept(w) => AcceptKeepsInv(cfg, s, w);
    case AcceptOrphan(key) => OrphanKeepsInv(cfg, s, key);
    case Die(w) => DieKeepsInv(cfg, s, w);
  }

  lemma {:induction false} RunKeepsInv(cfg: Config, s: System, acts: seq<Action>)
    requires cfg.scope == PerSupplierOrder
    requires Inv(cfg, s) && Legal(cfg, s, acts)
    ensures Inv(cfg, Run(cfg, s, acts))
    decreases |acts|
  {
    if acts != [] {
      RunKeepsInv(cfg, s, acts[..|acts| - 1]);
      StepKeepsInv(cfg, Run(cfg, s, acts[..|acts| - 1]), acts[|acts| - 1]);
    }
  }

  // ----- What every run keeps, and when ------------------------------------------------

  /** No run of deliveries, crashes and lost writes makes the supplier accept a refund twice. */
  ghost predicate AtMostOnce(cfg: Config) {
    forall acts, key: Key | Legal(cfg, IDLE, acts) :: Count(Run(cfg, IDLE, acts).filed, key) <= 1
  }

  ghost predicate IsDone(s: System, key: Key) {
    MarkerOf(s.docs, key).Some? && MarkerOf(s.docs, key).value.Done?
  }

  /** In every run a job that was acknowledged has a DONE marker, and keeps it. */
  ghost predicate AcksStayDone(cfg: Config) {
    forall acts, key | Legal(cfg, IDLE, acts) && key in Run(cfg, IDLE, acts).acked ::
      IsDone(Run(cfg, IDLE, acts), key)
  }

  lemma Then(cfg: Config, s: System, acts: seq<Action>, a: Action) returns (longer: seq<Action>)
    requires Legal(cfg, s, acts) && Enabled(cfg, Run(cfg, s, acts), a)
    ensures longer == acts + [a] && Legal(cfg, s, longer)
    ensures Run(cfg, s, longer) == Next(cfg, Run(cfg, s, acts), a)
  {
    longer := acts + [a];
    assert longer[..|longer| - 1] == acts;
  }

  /** `s` with one more delivery under way, or with that delivery over. */
  ghost function During(s: System, docs: map<OrderId, Doc>, filed: map<Key, nat>, w: WorkerId, d: Delivery): System {
    s.(docs := docs, filed := filed, live := s.live[w := d])
  }

  ghost function After(s: System, docs: map<OrderId, Doc>, filed: map<Key, nat>, acked: set<Key>): System {
    s.(docs := docs, filed := filed, acked := acked)
  }

  /** A delivery up to what it decides on reading its marker. */
  lemma Decides(cfg: Config, s: System, pre: seq<Action>, t: System, w: WorkerId, key: Key, adapter: Adapter)
    returns (acts: seq<Action>)
    requires Legal(cfg, s, pre) && Run(cfg, s, pre) == t && w !in t.live && MayDeliver(cfg.scope, t, key)
    ensures Legal(cfg, s, acts)
    ensures Run(cfg, s, acts) ==
      match MarkerOf(t.docs, key)
      case Some(Done(_)) => After(t, t.docs, t.filed, t.acked + {key})
      case Some(InProgress) => During(t, t.docs, t.filed, w, Delivery(key, adapter, EditRead(Record(false))))
      case None =>
        if adapter.Missing? then t
        else During(t, t.docs, t.filed, w, Delivery(key, adapter, EditRead(FirstEdit(adapter))))
  {
    acts := Then(cfg, s, pre, Deliver(w, key, adapter));
    acts := Then(cfg, s, acts, ReadMarker(w));
  }

  function FirstEdit(adapter: Adapter): Edit {
    if adapter.WithRefund? then Mark else Record(false)
  }

  lemma Writes(
    cfg: Config, t: System, docs: map<OrderId, Doc>, filed: map<Key, nat>, w: WorkerId, d: Delivery, fault: Fault)
    requires w !in t.live && d.phase.EditWrite? && d.phase.snapshot == DocOf(docs, d.key.order)
    ensures
      var s, edit := During(t, docs, filed, w, d), d.phase.edit;
      var edited := EditedDocs(docs, d.key, edit, fault);
      Next(cfg, s, WriteDoc(w, fault.Commits(), fault.Fine?)) ==
        if edit.Mark? && fault.Fine? then During(t, edited, filed, w, d.(phase := Calling(false)))
        else After(t, edited, filed, t.acked + if edit.Record? && fault.Fine? then {d.key} else {})
  {
    assert t.live[w := d] - {w} == t.live;
  }

  /** One edit whose document is read and written back without interruption. */
  lemma Edits(
    cfg: Config, s: System, pre: seq<Action>, t: System, docs: map<OrderId, Doc>, filed: map<Key, nat>,
    w: WorkerId, d: Delivery, fault: Fault)
    returns (acts: seq<Action>)
    requires Legal(cfg, s, pre) && Run(cfg, s, pre) == During(t, docs, filed, w, d)
    requires w !in t.live && d.phase.EditRead?
    ensures Legal(cfg, s, acts)
    ensures
      var edited := EditedDocs(docs, d.key, d.phase.edit, fault);
      Run(cfg, s, acts) ==
        if d.phase.edit.Mark? && fault.Fine? then During(t, edited, filed, w, d.(phase := Calling(false)))
        else After(t, edited, filed, t.acked + if d.phase.edit.Record? && fault.Fine? then {d.key} else {})
  {
    var read := During(t, docs, filed, w, d.(phase := EditWrite(d.phase.edit, DocOf(docs, d.key.order))));
    acts := Then(cfg, s, pre, ReadDoc(w));
    assert Run(cfg, s, acts) == read;
    Writes(cfg, t, docs, filed, w, read.live[w], fault);
    acts := Then(cfg, s, acts, WriteDoc(w, fault.Commits(), fault.Fine?));
  }

  lemma Accepts(
    cfg: Config, s: System, pre: seq<Action>, t: System, docs: map<OrderId, Doc>, w: WorkerId, d: Delivery)
    returns (acts: seq<Action>)
    requires Legal(cfg, s, pre) && Run(cfg, s, pre) == During(t, docs, t.filed, w, d)
    requires d.phase == Calling(false)
    ensures Legal(cfg, s, acts)
    ensures Run(cfg, s, acts) == During(t, docs, Bumped(t.filed, d.key), w, d.(phase := Calling(true)))
  {
    acts := Then(cfg, s, pre, Accept(w));
  }

  /** A delivery that finds no marker gets as far as an accepted request. */
  lemma FileOnce(cfg: Config, pre: seq<Action>, t: System, w: WorkerId, key: Key) returns (acts: seq<Action>)
    requires Legal(cfg, IDLE, pre) && Run(cfg, IDLE, pre) == t
    requires w !in t.live && MayDeliver(cfg.scope, t, key) && MarkerOf(t.docs, key) == None
    ensures Legal(cfg, IDLE, acts)
    ensures Run(cfg, IDLE, acts) ==
      During(t, EditedDocs(t.docs, key, Mark, Fine), Bumped(t.filed, key), w, Delivery(key, WithRefund, Calling(true)))
  {
    acts := Decides(cfg, IDLE, pre, t, w, key, WithRefund);
    acts := Edits(cfg, IDLE, acts, t, t.docs, t.filed, w, Delivery(key, WithRefund, EditRead(Mark)), Fine);
    acts := Accepts(cfg, IDLE, acts, t, EditedDocs(t.docs, key, Mark, Fine), w, Delivery(key, WithRefund, Calling(false)));
  }

  /** A call that filed the refund and then threw has its marker cleared, and is repeated. */
  lemma ThrownCallFilesTwice(cfg: Config, key: Key) returns (acts: seq<Action>)
    requires cfg.thrownCallMayHaveFiled
    ensures Legal(cfg, IDLE, acts) && Count(Run(cfg, IDLE, acts).filed, key) == 2
  {
    acts := FileOnce(cfg, [], IDLE, 0, key);
    var marked, filed := EditedDocs(map[], key, Mark, Fine), Bumped(map[], key);
    acts := Then(cfg, IDLE, acts, CallThrows(0));
    acts := Edits(cfg, IDLE, acts, IDLE, marked, filed, 0, Delivery(key, WithRefund, EditRead(Clear)), Fine);
    acts := FileOnce(cfg, acts, After(IDLE, EditedDocs(marked, key, Clear, Fine), filed, {}), 1, key);
  }

  /** A first delivery up to the point where it has read the document it will write back. */
  lemma Opens(cfg: Config, pre: seq<Action>, t: System, w: WorkerId, key: Key, adapter: Adapter)
    returns (acts: seq<Action>)
    requires Legal(cfg, IDLE, pre) && Run(cfg, IDLE, pre) == t
    requires w !in t.live && MayDeliver(cfg.scope, t, key) && MarkerOf(t.docs, key) == None && adapter != Missing
    ensures Legal(cfg, IDLE, acts)
    ensures Run(cfg, IDLE, acts) ==
      During(t, t.docs, t.filed, w, Delivery(key, adapter, EditWrite(FirstEdit(adapter), DocOf(t.docs, key.order))))
  {
    acts := Decides(cfg, IDLE, pre, t, w, key, adapter);
    acts := Then(cfg, IDLE, acts, ReadDoc(w));
  }

  /** Two refunds of one supplier order start editing the same document. */
  lemma BothRead(cfg: Config, a: Key, b: Key, adapter: Adapter) returns (acts: seq<Action>)
    requires cfg.scope != PerSupplierOrder && a.order == b.order && a != b && adapter != Missing
    ensures Legal(cfg, IDLE, acts)
    ensures
      var phase := EditWrite(FirstEdit(adapter), map[]);
      Run(cfg, IDLE, acts) ==
        IDLE.(live := map[0 := Delivery(a, adapter, phase), 1 := Delivery(b, adapter, phase)])
  {
    var first := During(IDLE, map[], map[], 0, Delivery(a, adapter, EditWrite(FirstEdit(adapter), map[])));
    acts := Opens(cfg, [], IDLE, 0, a, adapter);
    acts := Opens(cfg, acts, first, 1, b, adapter);
  }

  /** The second write drops the first refund's marker, although its request was accepted. */
  lemma LostMarker(cfg: Config, a: Key, b: Key) returns (acts: seq<Action>, t: System)
    requires cfg.scope != PerSupplierOrder && a.order == b.order && a != b
    ensures Legal(cfg, IDLE, acts) && Run(cfg, IDLE, acts) == t
    ensures t == System(map[a.order := map[b.refund := InProgress]],
                        map[1 := Delivery(b, WithRefund, Calling(false))], map[a := 1], map[], {})
  {
    acts := BothRead(cfg, a, b, WithRefund);
    acts := Then(cfg, IDLE, acts, WriteDoc(0, true, true));
    acts := Then(cfg, IDLE, acts, Accept(0));
    acts := Then(cfg, IDLE, acts, WriteDoc(1, true, true));
    acts := Then(cfg, IDLE, acts, Die(0));
    t := Run(cfg, IDLE, acts);
  }

  /** So a redelivery files that refund again. */
  lemma LostMarkerFilesTwice(cfg: Config, a: Key, b: Key) returns (acts: seq<Action>)
    requires cfg.scope != PerSupplierOrder && a.order == b.order && a != b
    ensures Legal(cfg, IDLE, acts) && Count(Run(cfg, IDLE, acts).filed, a) == 2
  {
    var t;
    acts, t := LostMarker(cfg, a, b);
    acts := FileOnce(cfg, acts, t, 2, a);
  }

  lemma LostAck(cfg: Config, a: Key, b: Key) returns (acts: seq<Action>)
    requires cfg.scope != PerSupplierOrder && a.order == b.order && a != b
    ensures Legal(cfg, IDLE, acts)
    ensures a in Run(cfg, IDLE, acts).acked && MarkerOf(Run(cfg, IDLE, acts).docs, a) == None
  {
    acts := BothRead(cfg, a, b, WithoutRefund);
    acts := Then(cfg, IDLE, acts, WriteDoc(0, true, true));
    acts := Then(cfg, IDLE, acts, WriteDoc(1, true, true));
  }

  /**
   At most one accepted request per refund holds exactly when deliveries for one supplier
   ORDER never overlap and a call that throws has filed nothing. Keeping apart only
   deliveries of the same refund is not enough.
   */
  lemma AtMostOnceIff(cfg: Config)
    ensures AtMostOnce(cfg) <==> cfg == Config(PerSupplierOrder, false)
  {
    var a, b := Key("o", "r"), Key("o", "");
    if cfg.thrownCallMayHaveFiled {
      var acts := ThrownCallFilesTwice(cfg, a);
      assert !AtMostOnce(cfg);
    } else if cfg.scope != PerSupplierOrder {
      var acts := LostMarkerFilesTwice(cfg, a, b);
      assert !AtMostOnce(cfg);
    } else {
      forall acts, key: Key | Legal(cfg, IDLE, acts)
        ensures Count(Run(cfg, IDLE, acts).filed, key) <= 1
      {
        RunKeepsInv(cfg, IDLE, acts);
        assert Committed(Run(cfg, IDLE, acts), key) <= 1;
      }
    }
  }

  /** An acknowledgement stands for a DONE marker exactly under the same separation. */
  lemma AcksStayDoneIff(cfg: Config)
    ensures AcksStayDone(cfg) <==> cfg.scope == PerSupplierOrder
  {
    if cfg.scope != PerSupplierOrder {
      var acts := LostAck(cfg, Key("o", "r"), Key("o", ""));
      assert !IsDone(Run(cfg, IDLE, acts), Key("o", "r"));
    } else {
      forall acts, key | Legal(cfg, IDLE, acts) && key in Run(cfg, IDLE, acts).acked
        ensures IsDone(Run(cfg, IDLE, acts), key)
      {
        RunKeepsInv(cfg, IDLE, acts);
      }
    }
  }

  // ----- The handler -------------------------------------------------------------------

  datatype Payload = Payload(
    tenantId: string, refundId: RefundId, supplierOrderId: OrderId, supplierId: string, externalId: string)
  {
    predicate Valid() {
      tenantId != "" && refundId != "" && supplierOrderId != "" && supplierId != "" && externalId != ""
    }

    function RefundKey(): Key { Key(supplierOrderId, refundId) }
  }

  /** How the call ends; `taken` when the supplier has accepted the request by then. */
  datatype Call = Answers(requested: bool, taken: bool) | Fails(taken: bool) | Interrupted(taken: bool)

  /** What happens at each await of one attempt. */
  datatype Script = Script(read: Fault, mark: Fault, call: Call, clear: Fault, record: Fault)

  datatype Outcome = Acked | Failed | Dead

  function OutcomeOf(fault: Fault): Outcome {
    if fault.Fine? then Acked else if fault.Throws? then Failed else Dead
  }

  function AdapterOf(registry: map<string, bool>, supplierId: string): Adapter {
    if supplierId !in registry then Missing else if registry[supplierId] then WithRefund else WithoutRefund
  }

  class OrderRepository {
    var docs: map<OrderId, Doc>

    constructor ()
      ensures docs == map[]
    {
      docs := map[];
    }

    method GetSupplierRefundRequestState(key: Key) returns (state: Option<Marker>)
      ensures state == MarkerOf(docs, key)
    {
      var requests := map[];
      if key.order in docs { requests := docs[key.order]; }
      if key.refund in requests { return Some(requests[key.refund]); }
      return None;
    }

    method SetSupplierRefundRequestInProgress(key: Key, inProgress: bool, fault: Fault)
      modifies this
      ensures docs == EditedDocs(old(docs), key, if inProgress then Mark else Clear, fault)
    {
      var requests := DocOf(docs, key.order);
      var others := requests - {key.refund};
      if fault.Commits() {
        docs := docs[key.order := if inProgress then others[key.refund := InProgress] else others];
        assert others[key.refund := InProgress] == requests[key.refund := InProgress];
      }
    }

    method RecordSupplierRefundResult(key: Key, requested: bool, fault: Fault)
      modifies this
      ensures docs == EditedDocs(old(docs), key, Record(requested), fault)
    {
      var requests := DocOf(docs, key.order);
      if fault.Commits() {
        docs := docs[key.order := requests[key.refund := Done(requested)]];
      }
    }
  }

  /** What one attempt leaves behind: its outcome, whether it called, and the three records. */
  datatype Attempt = Attempt(
    outcome: Outcome, called: bool, docs: map<OrderId, Doc>, filed: map<Key, nat>, orphans: map<Key, nat>)

  function Recorded(s: System, key: Key, docs: map<OrderId, Doc>, filed: map<Key, nat>, requested: bool,
                    called: bool, fault: Fault): Attempt
  {
    Attempt(OutcomeOf(fault), called, EditedDocs(docs, key, Record(requested), fault), filed, s.orphans)
  }

  /** From the call to the supplier on, with the marker already written to `docs`. */
  function CallAttempt(s: System, key: Key, docs: map<OrderId, Doc>, script: Script): Attempt {
    var filed := if script.call.taken then Bumped(s.filed, key) else s.filed;
    match script.call
    case Interrupted(taken) =>
      Attempt(Dead, true, docs, filed, if taken then s.orphans else Bumped(s.orphans, key))
    case Fails(_) =>
      Attempt(if script.clear.Dies? then Dead else Failed, true,
              EditedDocs(docs, key, Clear, script.clear), filed, s.orphans)
    case Answers(requested, _) => Recorded(s, key, docs, filed, requested, true, script.record)
  }

  /** The attempt of a valid payload. */
  function AttemptOf(s: System, key: Key, adapter: Adapter, script: Script): Attempt {
    var nothing := Attempt(Failed, false, s.docs, s.filed, s.orphans);
    if !script.read.Fine? then nothing.(outcome := OutcomeOf(script.read))
    else
      match MarkerOf(s.docs, key)
      case Some(Done(_)) => nothing.(outcome := Acked)
      case Some(InProgress) => Recorded(s, key, s.docs, s.filed, false, false, script.record)
      case None =>
        match adapter
        case Missing => nothing
        case WithoutRefund => Recorded(s, key, s.docs, s.filed, false, false, script.record)
        case WithRefund =>
          var marked := EditedDocs(s.docs, key, Mark, script.mark);
          if !script.mark.Fine? then nothing.(outcome := OutcomeOf(script.mark), docs := marked)
          else CallAttempt(s, key, marked, script)
  }

  /** Where the steps of the attempt lead: its delivery is over. */
  ghost function Settled(s: System, key: Key, a: Attempt): System {
    s.(docs := a.docs, filed := a.filed, orphans := a.orphans,
       acked := s.acked + if a.outcome == Acked then {key} else {})
  }

  /** The end of a call, as one step of a delivery whose request was or was not accepted. */
  lemma CallEnds(
    cfg: Config, s: System, pre: seq<Action>, docs: map<OrderId, Doc>, filed: map<Key, nat>,
    w: WorkerId, d: Delivery, call: Call)
    returns (acts: seq<Action>)
    requires w !in s.live && Legal(cfg, s, pre) && Run(cfg, s, pre) == During(s, docs, filed, w, d)
    requires d.phase == Calling(call.taken)
    requires call.Fails? && call.taken ==> cfg.thrownCallMayHaveFiled
    ensures Legal(cfg, s, acts)
    ensures Run(cfg, s, acts) ==
      if call.Interrupted?
      then After(s, docs, filed, s.acked).(orphans := if call.taken then s.orphans else Bumped(s.orphans, d.key))
      else During(s, docs, filed, w, d.(phase := EditRead(if call.Answers? then Record(call.requested) else Clear)))
  {
    assert s.live[w := d] - {w} == s.live;
    acts := Then(cfg, s, pre,
                 match call
                 case Answers(requested, _) => Answer(w, requested)
                 case Fails(_) => CallThrows(w)
                 case Interrupted(_) => Die(w));
  }

  /** From the request to the end of the call. */
  lemma CallResolves(
    cfg: Config, s: System, pre: seq<Action>, docs: map<OrderId, Doc>, w: WorkerId, d: Delivery, call: Call)
    returns (acts: seq<Action>, filed: map<Key, nat>)
    requires w !in s.live && Legal(cfg, s, pre) && Run(cfg, s, pre) == During(s, docs, s.filed, w, d)
    requires d.phase == Calling(false)
    requires call.Fails? && call.taken ==> cfg.thrownCallMayHaveFiled
    ensures filed == if call.taken then Bumped(s.filed, d.key) else s.filed
    ensures Legal(cfg, s, acts)
    ensures Run(cfg, s, acts) ==
      if call.Interrupted?
      then After(s, docs, filed, s.acked).(orphans := if call.taken then s.orphans else Bumped(s.orphans, d.key))
      else During(s, docs, filed, w, d.(phase := EditRead(if call.Answers? then Record(call.requested) else Clear)))
  {
    acts, filed := pre, s.filed;
    if call.taken {
      acts := Accepts(cfg, s, acts, s, docs, w, d);
      filed := Bumped(s.filed, d.key);
    }
    acts := CallEnds(cfg, s, acts, docs, filed, w, d.(phase := Calling(call.taken)), call);
  }

  /** A delivery whose last edit is `edit`: it clears or records. */
  lemma EditEnds(
    cfg: Config, s: System, pre: seq<Action>, docs: map<OrderId, Doc>, w: WorkerId, d: Delivery, a: Attempt, fault: Fault)
    returns (acts: seq<Action>)
    requires w !in s.live && Legal(cfg, s, pre) && d.phase.EditRead? && !d.phase.edit.Mark?
    requires Run(cfg, s, pre) == During(s, docs, a.filed, w, d)
    requires a.docs == EditedDocs(docs, d.key, d.phase.edit, fault) && a.orphans == s.orphans
    requires a.outcome == Acked <==> d.phase.edit.Record? && fault.Fine?
    ensures Legal(cfg, s, acts) && Run(cfg, s, acts) == Settled(s, d.key, a)
  {
    acts := Edits(cfg, s, pre, s, docs, a.filed, w, d, fault);
  }

  lemma CallIsRun(
    cfg: Config, s: System, pre: seq<Action>, w: WorkerId, key: Key, docs: map<OrderId, Doc>, script: Script)
    returns (acts: seq<Action>)
    requires w !in s.live
    requires Legal(cfg, s, pre)
    requires Run(cfg, s, pre) == During(s, docs, s.filed, w, Delivery(key, WithRefund, Calling(false)))
    requires script.call.Fails? && script.call.taken ==> cfg.thrownCallMayHaveFiled
    ensures Legal(cfg, s, acts) && Run(cfg, s, acts) == Settled(s, key, CallAttempt(s, key, docs, script))
  {
    var d, filed: map<Key, nat> := Delivery(key, WithRefund, Calling(false)), s.filed;
    acts, filed := CallResolves(cfg, s, pre, docs, w, d, script.call);
    var a := CallAttempt(s, key, docs, script);
    assert a.filed == filed;
    match script.call
    case Interrupted(_) =>
    case Fails(_) => acts := EditEnds(cfg, s, acts, docs, w, d.(phase := EditRead(Clear)), a, script.clear);
    case Answers(requested, _) =>
      acts := EditEnds(cfg, s, acts, docs, w, d.(phase := EditRead(Record(requested))), a, script.record);
  }

  lemma ReadEnds(cfg: Config, s: System, w: WorkerId, key: Key, adapter: Adapter) returns (acts: seq<Action>)
    requires w !in s.live && MayDeliver(cfg.scope, s, key)
    ensures Legal(cfg, s, acts) && Run(cfg, s, acts) == s
  {
    acts := Then(cfg, s, [], Deliver(w, key, adapter));
    acts := Then(cfg, s, acts, Die(w));
    assert s.live[w := Delivery(key, adapter, Reading)] - {w} == s.live;
  }

  /** From the first read of an unmarked refund with a capable supplier. */
  lemma MarkIsRun(cfg: Config, s: System, pre: seq<Action>, w: WorkerId, key: Key, script: Script)
    returns (acts: seq<Action>)
    requires w !in s.live && script.read.Fine? && MarkerOf(s.docs, key) == None
    requires script.call.Fails? && script.call.taken ==> cfg.thrownCallMayHaveFiled
    requires Legal(cfg, s, pre)
    requires Run(cfg, s, pre) == During(s, s.docs, s.filed, w, Delivery(key, WithRefund, EditRead(Mark)))
    ensures Legal(cfg, s, acts) && Run(cfg, s, acts) == Settled(s, key, AttemptOf(s, key, WithRefund, script))
  {
    acts := Edits(cfg, s, pre, s, s.docs, s.filed, w, Delivery(key, WithRefund, EditRead(Mark)), script.mark);
    if script.mark.Fine? {
      acts := CallIsRun(cfg, s, acts, w, key, EditedDocs(s.docs, key, Mark, Fine), script);
    }
  }

  /** Every attempt, however it is cut short, is a legal run of the steps of one delivery. */
  lemma AttemptIsRun(cfg: Config, s: System, w: WorkerId, key: Key, adapter: Adapter, script: Script)
    returns (acts: seq<Action>)
    requires w !in s.live && MayDeliver(cfg.scope, s, key)
    requires script.call.Fails? && script.call.taken ==> cfg.thrownCallMayHaveFiled
    ensures Legal(cfg, s, acts) && Run(cfg, s, acts) == Settled(s, key, AttemptOf(s, key, adapter, script))
  {
    var marker, a := MarkerOf(s.docs, key), AttemptOf(s, key, adapter, script);
    if !script.read.Fine? {
      acts := ReadEnds(cfg, s, w, key, adapter);
    } else {
      acts := Decides(cfg, s, [], s, w, key, adapter);
      if marker == Some(InProgress) || (marker == None && adapter == WithoutRefund) {
        acts := EditEnds(cfg, s, acts, s.docs, w, Delivery(key, adapter, EditRead(Record(false))), a, script.record);
      } else if marker == None && adapter == WithRefund {
        acts := MarkIsRun(cfg, s, acts, w, key, script);
      }
    }
  }

  /**
   What an attempt means to its caller: it calls only an unmarked refund's capable supplier,
   an acknowledgement leaves the marker DONE with the supplier's own answer (or with "not
   requested" when nothing was called), a failed call leaves the refund free to be retried,
   and an interrupted one does not.
   */
  lemma AttemptMeaning(s: System, key: Key, adapter: Adapter, script: Script)
    ensures
      var a := AttemptOf(s, key, adapter, script);
      var before, after := MarkerOf(s.docs, key), MarkerOf(a.docs, key);
      && (a.called <==> script.read.Fine? && before == None && adapter == WithRefund && script.mark.Fine?)
      && (a.outcome == Acked ==> after.Some? && after.value.Done?)
      && (a.outcome == Acked && a.called ==> script.call.Answers? && after == Some(Done(script.call.requested)))
      && (a.outcome == Acked && !a.called ==> after == Some(Done(false)) || after == before)
      && (a.called && script.call.Fails? && script.clear.Commits() ==> after == None)
      && (a.called && script.call.Interrupted? ==> after == Some(InProgress))
  {
    var marked := EditedDocs(s.docs, key, Mark, script.mark);
    EditedMarker(s.docs, key, Mark, script.mark, key);
    EditedMarker(s.docs, key, Record(false), script.record, key);
    EditedMarker(marked, key, Clear, script.clear, key);
    if script.call.Answers? {
      EditedMarker(marked, key, Record(script.call.requested), script.record, key);
    }
  }

  /** A call or write that failed ends the attempt, and one that killed the process ends that too. */
  predicate EndedBy(outcome: Outcome, fault: Fault) {
    (outcome == Acked <==> fault.Fine?) && (outcome == Failed <==> fault.Throws?) && (outcome == Dead <==> fault.Dies?)
  }

  /** The answer was or was not recorded: the attempt is acknowledged exactly when the write went through. */
  predicate RecordedAs(before: Option<Marker>, requested: bool, record: Fault, outcome: Outcome, after: Option<Marker>) {
    EndedBy(outcome, record) && after == if record.Fine? || record.committed then Some(Done(requested)) else before
  }

  /** How an attempt ends, told from the marker it found, the registry, and how each of its calls went. */
  predicate Told(
    before: Option<Marker>, registry: map<string, bool>, supplierId: string, script: Script,
    outcome: Outcome, called: bool, after: Option<Marker>)
  {
    if !script.read.Fine? then !called && after == before && EndedBy(outcome, script.read)
    else if before.Some? && before.value.Done? then !called && after == before && outcome == Acked
    else if before.Some? then !called && RecordedAs(before, false, script.record, outcome, after)
    else if supplierId !in registry then !called && after == None && outcome == Failed
    else if !registry[supplierId] then !called && RecordedAs(None, false, script.record, outcome, after)
    else if !script.mark.Fine? then
      !called && EndedBy(outcome, script.mark) && after == if script.mark.committed then Some(InProgress) else None
    else
      called && CallTold(script, outcome, after)
  }

  /** What an attempt adds to what the supplier has accepted, or may still accept. */
  predicate Accepted(s: System, key: Key, call: Call, called: bool, a: Attempt) {
    && a.filed == (if called && call.taken then s.filed[key := Count(s.filed, key) + 1] else s.filed)
    && a.orphans == if called && call.Interrupted? && !call.taken then s.orphans[key := Count(s.orphans, key) + 1] else s.orphans
  }

  /** How the attempt ends from the call to the supplier on. */
  predicate CallTold(script: Script, outcome: Outcome, after: Option<Marker>) {
    if script.call.Answers? then RecordedAs(Some(InProgress), script.call.requested, script.record, outcome, after)
    else if script.call.Interrupted? then outcome == Dead && after == Some(InProgress)
    else
      && outcome == (if script.clear.Dies? then Dead else Failed)
      && after == if script.clear.Fine? || script.clear.committed then None else Some(InProgress)
  }

  lemma CallAnswers(s: System, key: Key, docs: map<OrderId, Doc>, script: Script)
    requires MarkerOf(docs, key) == Some(InProgress)
    ensures
      var a := CallAttempt(s, key, docs, script);
      a.called && CallTold(script, a.outcome, MarkerOf(a.docs, key)) && Accepted(s, key, script.call, true, a)
  {
    EditedMarker(docs, key, Clear, script.clear, key);
    if script.call.Answers? { EditedMarker(docs, key, Record(script.call.requested), script.record, key); }
  }

  /** Every attempt ends as its marker, its supplier and its calls say. */
  lemma AttemptAnswers(s: System, key: Key, registry: map<string, bool>, supplierId: string, script: Script)
    ensures
      var a := AttemptOf(s, key, AdapterOf(registry, supplierId), script);
      && Told(
           MarkerOf(s.docs, key), registry, supplierId, script, a.outcome, a.called, MarkerOf(a.docs, key))
      && Accepted(s, key, script.call, a.called, a)
  {
    var marked := EditedDocs(s.docs, key, Mark, script.mark);
    EditedMarker(s.docs, key, Mark, script.mark, key);
    EditedMarker(s.docs, key, Record(false), script.record, key);
    if script.mark.Fine? { CallAnswers(s, key, marked, script); }
  }

  /** An attempt at one refund changes no other refund's marker. */
  lemma AttemptLeavesOthers(s: System, key: Key, adapter: Adapter, script: Script, other: Key)
    requires other != key
    ensures MarkerOf(AttemptOf(s, key, adapter, script).docs, other) == MarkerOf(s.docs, other)
  {
    var marked := EditedDocs(s.docs, key, Mark, script.mark);
    EditedMarker(s.docs, key, Mark, script.mark, other);
    EditedMarker(s.docs, key, Record(false), script.record, other);
    EditedMarker(marked, key, Clear, script.clear, other);
    if script.call.Answers? {
      EditedMarker(marked, key, Record(script.call.requested), script.record, other);
    }
  }

  /** The refund job's handler. Its effect on the repository is that of `AttemptOf`. */
  method HandleSupplierRefund(
    repo: OrderRepository, payload: Payload, registry: map<string, bool>, script: Script, ghost s: System)
    returns (outcome: Outcome, called: bool)
    requires s.docs == repo.docs
    modifies repo
    ensures !payload.Valid() ==> outcome == Failed && !called && repo.docs == old(repo.docs)
    ensures payload.Valid() ==>
              var a := AttemptOf(s, payload.RefundKey(), AdapterOf(registry, payload.supplierId), script);
              outcome == a.outcome && called == a.called && repo.docs == a.docs
    ensures "" in [payload.tenantId, payload.refundId, payload.supplierOrderId, payload.supplierId, payload.externalId] ==>
              outcome == Failed && !called && repo.docs == old(repo.docs)
    ensures "" !in [payload.tenantId, payload.refundId, payload.supplierOrderId, payload.supplierId, payload.externalId] ==>
              var key := Key(payload.supplierOrderId, payload.refundId);
              && Told(
                   MarkerOf(old(repo.docs), key), registry, payload.supplierId, script, outcome, called,
                   MarkerOf(repo.docs, key))
              && forall other | other != key :: MarkerOf(repo.docs, other) == MarkerOf(old(repo.docs), other)
  {
    AttemptAnswers(s, payload.RefundKey(), registry, payload.supplierId, script);
    forall other | other != payload.RefundKey() {
      AttemptLeavesOthers(s, payload.RefundKey(), AdapterOf(registry, payload.supplierId), script, other);
    }
    var key := payload.RefundKey();
    called := false;
    if !payload.Valid() {
      return Failed, called;
    }
    if !script.read.Fine? {
      return OutcomeOf(script.read), called;
    }
    var state := repo.GetSupplierRefundRequestState(key);
    if state.Some? && state.value.Done? {
      return Acked, called;
    }
    if state == Some(InProgress) {
      repo.RecordSupplierRefundResult(key, false, script.record);
      return OutcomeOf(script.record), called;
    }
    var adapter := AdapterOf(registry, payload.supplierId);
    if adapter == Missing {
      return Failed, called;
    }
    if adapter == WithoutRefund {
      repo.RecordSupplierRefundResult(key, false, script.record);
      return OutcomeOf(script.record), called;
    }

    repo.SetSupplierRefundRequestInProgress(key, true, script.mark);
    if !script.mark.Fine? {
      return OutcomeOf(script.mark), called;
    }

    called := true;
    match script.call
    case Interrupted(_) =>
      return Dead, called;
    case Fails(_) =>
      repo.SetSupplierRefundRequestInProgress(key, false, script.clear);
      return if script.clear.Dies? then Dead else Failed, called;
    case Answers(requested, _) =>
      repo.RecordSupplierRefundResult(key, requested, script.record);
      return OutcomeOf(script.record), called;
  }
}
