/** One tenant's collections and their parent links, under create, update and soft delete. */
module Collections {
  import opened Options

  type Id = nat

  datatype Row = Row(parent: Option<Id>, slug: string, deleted: bool)

  datatype Table = Table(rows: map<Id, Row>, nextId: Id)

  const START := Table(map[], 0)

  /** What an update says about the parent: nothing, `null`, or a collection. */
  datatype Patch = Leave | Clear | Move(parent: Id)

  /** `categoryFound` is whether the category asked for, if any, exists. */
  datatype Event =
    | Create(slug: string, under: Option<Id>, categoryFound: bool)
    | Update(id: Id, newSlug: Option<string>, patch: Patch, categoryFound: bool)
    | Delete(id: Id)

  datatype Reply = Saved(id: Id) | Failed(status: nat)

  // ----- One request ---------------------------------------------------------------------------

  predicate Live(t: Table, id: Id) { id in t.rows && !t.rows[id].deleted }

  predicate SlugLive(t: Table, slug: string) { exists id :: id in t.rows && !t.rows[id].deleted && t.rows[id].slug == slug }

  /** The unique index sees soft-deleted rows too. */
  predicate SlugHeld(t: Table, slug: string, id: Id) { exists i :: i in t.rows && i != id && t.rows[i].slug == slug }

  /** Soft-deleted children count. */
  predicate HasChildren(t: Table, id: Id) { exists i :: i in t.rows && t.rows[i].parent == Some(id) }

  function CreateFault(t: Table, slug: string, parent: Option<Id>, categoryFound: bool): Option<nat> {
    if parent.Some? && !Live(t, parent.value) then Some(404)
    else if !categoryFound then Some(404)
    else if SlugLive(t, slug) || SlugHeld(t, slug, t.nextId) then Some(409)
    else None
  }

  function MoveFault(t: Table, id: Id, parent: Id): Option<nat> {
    if parent == id then Some(400)
    else if !Live(t, parent) then Some(404)
    else if t.rows[parent].parent.Some? then Some(400)
    else if HasChildren(t, id) then Some(400)
    else None
  }

  function UpdateFault(t: Table, id: Id, slug: Option<string>, parent: Patch, categoryFound: bool): Option<nat> {
    if !Live(t, id) then Some(404)
    else if parent.Move? && MoveFault(t, id, parent.parent).Some? then MoveFault(t, id, parent.parent)
    else if !categoryFound then Some(404)
    else if slug.Some? && slug.value != "" && slug.value != t.rows[id].slug && SlugLive(t, slug.value) then Some(409)
    else if slug.Some? && SlugHeld(t, slug.value, id) then Some(409)
    else None
  }

  function Patched(row: Row, slug: Option<string>, parent: Patch): Row {
    row.(slug := if slug.Some? then slug.value else row.slug,
         parent := match parent case Leave => row.parent case Clear => None case Move(p) => Some(p))
  }

  function Next(t: Table, e: Event): (Table, Reply) {
    match e
    case Create(slug, parent, categoryFound) =>
      (match CreateFault(t, slug, parent, categoryFound)
       case Some(status) => (t, Failed(status))
       case None => (Table(t.rows[t.nextId := Row(parent, slug, false)], t.nextId + 1), Saved(t.nextId)))
    case Update(id, slug, parent, categoryFound) =>
      (match UpdateFault(t, id, slug, parent, categoryFound)
       case Some(status) => (t, Failed(status))
       case None => (t.(rows := t.rows[id := Patched(t.rows[id], slug, parent)]), Saved(id)))
    case Delete(id) =>
      if !Live(t, id) then (t, Failed(404))
      else (t.(rows := t.rows[id := t.rows[id].(deleted := true)]), Saved(id))
  }

  function Run(t: Table, events: seq<Event>): Table
    decreases |events|
  {
    if events == [] then t else Run(Next(t, events[0]).0, events[1..])
  }

  // ----- The forest ------------------------------------------------------------------------------

  /** The `n`-th ancestor, the collection itself being the 0-th. */
  function Climb(rows: map<Id, Row>, id: Id, n: nat): Option<Id>
    decreases n
  {
    if n == 0 then Some(id)
    else if id !in rows || rows[id].parent.None? then None
    else Climb(rows, rows[id].parent.value, n - 1)
  }

  /** Every parent link leads to a row, and every climb ends above a top-level collection. */
  ghost predicate Forest(rows: map<Id, Row>) {
    && (forall id | id in rows && rows[id].parent.Some? :: rows[id].parent.value in rows)
    && (forall id | id in rows :: exists n: nat :: Climb(rows, id, n).None?)
  }

  ghost predicate Inv(t: Table) {
    && (forall id | id in t.rows :: id < t.nextId)
    && (forall i, j | i in t.rows && j in t.rows && t.rows[i].slug == t.rows[j].slug :: i == j)
    && Forest(t.rows)
  }

  /** Changing a row that is not on the way changes no climb. */
  lemma {:induction false} ClimbAvoids(rows: map<Id, Row>, id: Id, n: nat, changed: Id, row: Row)
    requires forall i | i in rows :: rows[i].parent != Some(changed)
    requires id != changed
    ensures Climb(rows[changed := row], id, n) == Climb(rows, id, n)
    decreases n
  {
    if n > 0 && id in rows && rows[id].parent.Some? {
      ClimbAvoids(rows, rows[id].parent.value, n - 1, changed, row);
    }
  }

  /** A row's own parent link is all that its climb depends on. */
  lemma {:induction false} ClimbSameParents(rows: map<Id, Row>, next: map<Id, Row>, id: Id, n: nat)
    requires next.Keys == rows.Keys && forall i | i in rows :: next[i].parent == rows[i].parent
    ensures Climb(next, id, n) == Climb(rows, id, n)
    decreases n
  {
    if n > 0 && id in rows && rows[id].parent.Some? {
      ClimbSameParents(rows, next, rows[id].parent.value, n - 1);
    }
  }

  lemma {:induction false} SameParentsForest(rows: map<Id, Row>, next: map<Id, Row>)
    requires next.Keys == rows.Keys && forall i | i in rows :: next[i].parent == rows[i].parent
    requires Forest(rows)
    ensures Forest(next)
  {
    forall id | id in next ensures exists n: nat :: Climb(next, id, n).None? {
      var n: nat :| Climb(rows, id, n).None?;
      ClimbSameParents(rows, next, id, n);
    }
  }

  /** Hanging a childless row under a row of the forest, or nowhere, leaves a forest. */
  lemma {:induction false} HangForest(rows: map<Id, Row>, id: Id, row: Row)
    requires Forest(rows) && forall i | i in rows :: rows[i].parent != Some(id)
    requires row.parent.Some? ==> row.parent.value in rows && row.parent.value != id
    ensures Forest(rows[id := row])
  {
    var next := rows[id := row];
    forall i | i in next ensures exists n: nat :: Climb(next, i, n).None? {
      if i != id {
        var n: nat :| Climb(rows, i, n).None?;
        ClimbAvoids(rows, i, n, id, row);
      } else if row.parent.Some? {
        var n: nat :| Climb(rows, row.parent.value, n).None?;
        ClimbAvoids(rows, row.parent.value, n, id, row);
        assert Climb(next, i, n + 1).None?;
      } else {
        assert Climb(next, i, 1).None?;
      }
    }
  }

  /** A row made top-level only shortens climbs. */
  lemma {:induction false} ClimbShorter(rows: map<Id, Row>, id: Id, n: nat, top: Id, row: Row)
    requires row.parent.None? && Climb(rows, id, n).None?
    ensures Climb(rows[top := row], id, n).None?
    decreases n
  {
    if n > 0 && id != top && id in rows && rows[id].parent.Some? {
      ClimbShorter(rows, rows[id].parent.value, n - 1, top, row);
    }
  }

  lemma {:induction false} TopForest(rows: map<Id, Row>, id: Id, row: Row)
    requires Forest(rows) && row.parent.None?
    ensures Forest(rows[id := row])
  {
    var next := rows[id := row];
    forall i | i in next ensures exists n: nat :: Climb(next, i, n).None? {
      if i in rows {
        var n: nat :| Climb(rows, i, n).None?;
        ClimbShorter(rows, i, n, id, row);
      } else {
        assert Climb(next, i, 1).None?;
      }
    }
  }

  lemma {:induction false} PatchedForest(t: Table, id: Id, slug: Option<string>, parent: Patch)
    requires Inv(t) && Live(t, id) && (parent.Move? ==> MoveFault(t, id, parent.parent).None?)
    ensures Forest(t.rows[id := Patched(t.rows[id], slug, parent)])
  {
    var row := Patched(t.rows[id], slug, parent);
    match parent
    case Leave => SameParentsForest(t.rows, t.rows[id := row]);
    case Clear => TopForest(t.rows, id, row);
    case Move(p) => HangForest(t.rows, id, row);
  }

  lemma {:induction false} NextKeepsForest(t: Table, e: Event)
    requires Inv(t)
    ensures Forest(Next(t, e).0.rows)
  {
    match e
    case Create(slug, parent, categoryFound) =>
      if CreateFault(t, slug, parent, categoryFound).None? {
        HangForest(t.rows, t.nextId, Row(parent, slug, false));
      }
    case Update(id, slug, parent, categoryFound) =>
      if UpdateFault(t, id, slug, parent, categoryFound).None? { PatchedForest(t, id, slug, parent); }
    case Delete(id) =>
      if Live(t, id) { SameParentsForest(t.rows, t.rows[id := t.rows[id].(deleted := true)]); }
  }

  lemma {:induction false} NextKeepsInv(t: Table, e: Event)
    requires Inv(t)
    ensures Inv(Next(t, e).0)
  {
    NextKeepsForest(t, e);
  }

  /** Over every run the parent links form a forest and slugs are unique, those of deleted rows included. */
  lemma {:induction false} RunKeepsInv(t: Table, events: seq<Event>)
    requires Inv(t)
    ensures Inv(Run(t, events))
    decreases |events|
  {
    if events != [] {
      NextKeepsInv(t, events[0]);
      RunKeepsInv(Next(t, events[0]).0, events[1..]);
    }
  }

  lemma {:induction false} ClimbTwice(rows: map<Id, Row>, id: Id, m: nat, n: nat)
    ensures Climb(rows, id, m + n)
         == if Climb(rows, id, m).None? then None else Climb(rows, Climb(rows, id, m).value, n)
    decreases m
  {
    if m > 0 && id in rows && rows[id].parent.Some? {
      ClimbTwice(rows, rows[id].parent.value, m - 1, n);
    }
  }

  lemma {:induction false} RoundAndRound(rows: map<Id, Row>, id: Id, n: nat, k: nat)
    requires Climb(rows, id, n) == Some(id)
    ensures Climb(rows, id, n * k) == Some(id)
    decreases k
  {
    if k > 0 {
      RoundAndRound(rows, id, n, k - 1);
      ClimbTwice(rows, id, n, n * (k - 1));
      assert n + n * (k - 1) == n * k;
    } else {
      assert n * k == 0;
    }
  }

  lemma {:induction false} RootedIsNoCycle(rows: map<Id, Row>, id: Id, m: nat, n: nat)
    requires Climb(rows, id, m).None? && n > 0
    ensures Climb(rows, id, n) != Some(id)
  {
    if Climb(rows, id, n) == Some(id) {
      RoundAndRound(rows, id, n, m);
      MulGrows(n, m);
      ClimbTwice(rows, id, m, n * m - m);
      assert false;
    }
  }

  /** No collection is ever its own ancestor. */
  lemma {:induction false} NoCycles(events: seq<Event>, id: Id, n: nat)
    requires id in Run(START, events).rows && n > 0
    ensures Climb(Run(START, events).rows, id, n) != Some(id)
  {
    RunKeepsInv(START, events);
    var rows := Run(START, events).rows;
    var m: nat :| Climb(rows, id, m).None?;
    RootedIsNoCycle(rows, id, m, n);
  }

  lemma {:induction false} MulGrows(n: nat, m: nat)
    requires n > 0
    ensures n * m >= m
  {
    assert n * m == m + (n - 1) * m;
  }

  // ----- Two levels --------------------------------------------------------------------------------

  ghost predicate TwoLevels(rows: map<Id, Row>) {
    forall id | id in rows :: Climb(rows, id, 2).None?
  }

  /** A create that hangs its collection under one that is itself nested. */
  predicate NestsDeep(t: Table, e: Event) {
    e.Create? && CreateFault(t, e.slug, e.under, e.categoryFound).None? &&
    e.under.Some? && t.rows[e.under.value].parent.Some?
  }

  /** Updates and deletes never nest three levels deep; a create does exactly when its parent is nested. */
  lemma {:induction false} TwoLevelsIff(t: Table, e: Event)
    requires Inv(t) && TwoLevels(t.rows)
    ensures TwoLevels(Next(t, e).0.rows) <==> !NestsDeep(t, e)
  {
    var next := Next(t, e).0.rows;
    if !NestsDeep(t, e) {
      NextKeepsInv(t, e);
      forall id, p | id in next && next[id].parent == Some(p) ensures p in next && next[p].parent.None? {
        ParentsStayFlat(t, e, id, p);
      }
      FlatClimbs(next);
    } else {
      assert Climb(next, t.nextId, 2) == Climb(next, e.under.value, 1);
    }
  }

  lemma {:induction false} FlatClimbs(rows: map<Id, Row>)
    requires forall id, p | id in rows && rows[id].parent == Some(p) :: p in rows && rows[p].parent.None?
    ensures TwoLevels(rows)
  {
    forall id | id in rows ensures Climb(rows, id, 2).None? {
      if rows[id].parent.Some? {
        assert Climb(rows, id, 2) == Climb(rows, rows[id].parent.value, 1);
      }
    }
  }

  lemma {:induction false} ParentsStayFlat(t: Table, e: Event, id: Id, p: Id)
    requires Inv(t) && TwoLevels(t.rows) && !NestsDeep(t, e)
    requires id in Next(t, e).0.rows && Next(t, e).0.rows[id].parent == Some(p)
    ensures p in Next(t, e).0.rows && Next(t, e).0.rows[p].parent.None?
  {
    FlatParents(t.rows);
  }

  lemma {:induction false} FlatParents(rows: map<Id, Row>)
    requires Forest(rows) && TwoLevels(rows)
    ensures forall id, p | id in rows && rows[id].parent == Some(p) :: p in rows && rows[p].parent.None?
  {
    forall id, p | id in rows && rows[id].parent == Some(p) && p in rows ensures rows[p].parent.None? {
      assert Climb(rows, id, 2) == Climb(rows, p, 1);
      assert rows[p].parent.Some? ==> Climb(rows, p, 1) == Climb(rows, rows[p].parent.value, 0);
    }
  }

  /** Every accepted create names no parent or a top-level one. */
  predicate CreatesStayFlat(t: Table, events: seq<Event>)
    decreases |events|
  {
    events == [] || (!NestsDeep(t, events[0]) && CreatesStayFlat(Next(t, events[0]).0, events[1..]))
  }

  ghost predicate AlwaysTwoLevels(t: Table, events: seq<Event>) {
    forall k | 0 <= k <= |events| :: TwoLevels(Run(t, events[..k]).rows)
  }

  lemma {:induction false} AlwaysCons(t: Table, events: seq<Event>)
    requires events != []
    ensures AlwaysTwoLevels(t, events)
            <==> TwoLevels(t.rows) && AlwaysTwoLevels(Next(t, events[0]).0, events[1..])
  {
    var u, rest := Next(t, events[0]).0, events[1..];
    forall k | 0 <= k < |events| ensures Run(t, events[..k + 1]) == Run(u, rest[..k]) {
      assert events[..k + 1][1..] == rest[..k];
    }
    assert events[..0] == [] && Run(t, events[..0]) == t;
    if TwoLevels(t.rows) && AlwaysTwoLevels(u, rest) {
      forall k | 0 <= k <= |events| ensures TwoLevels(Run(t, events[..k]).rows) {
        if k > 0 { assert Run(t, events[..k - 1 + 1]) == Run(u, rest[..k - 1]); }
      }
    }
    if AlwaysTwoLevels(t, events) {
      forall k | 0 <= k <= |rest| ensures TwoLevels(Run(u, rest[..k]).rows) {
        assert Run(t, events[..k + 1]) == Run(u, rest[..k]);
      }
    }
  }

  /** Collections stay two levels deep all along a run exactly when every create names a top-level parent. */
  lemma {:induction false} TwoLevelsThroughoutIff(t: Table, events: seq<Event>)
    requires Inv(t) && TwoLevels(t.rows)
    ensures AlwaysTwoLevels(t, events) <==> CreatesStayFlat(t, events)
    decreases |events|
  {
    if events != [] {
      var u := Next(t, events[0]).0;
      NextKeepsInv(t, events[0]);
      TwoLevelsIff(t, events[0]);
      AlwaysCons(t, events);
      if TwoLevels(u.rows) {
        TwoLevelsThroughoutIff(u, events[1..]);
      } else {
        assert Run(u, events[1..][..0]) == u;
      }
    } else {
      assert forall k | 0 <= k <= |events| :: Run(t, events[..k]) == t;
    }
  }

  /** Creation alone can nest three levels deep. */
  lemma {:induction false} ThreeLevels()
    ensures
      var t := Next(Next(Next(START, Create("a", None, true)).0, Create("b", Some(0), true)).0, Create("c", Some(1), true)).0;
      Climb(t.rows, 2, 2) == Some(0)
  {
    var t1 := Next(START, Create("a", None, true)).0;
    assert t1 == Table(map[0 := Row(None, "a", false)], 1);
    var t2 := Next(t1, Create("b", Some(0), true)).0;
    assert t2.rows == map[0 := Row(None, "a", false), 1 := Row(Some(0), "b", false)];
    var t3 := Next(t2, Create("c", Some(1), true)).0;
    assert t3.rows[2].parent == Some(1) && t3.rows[1].parent == Some(0);
    assert Climb(t3.rows, 2, 2) == Climb(t3.rows, 1, 1) == Climb(t3.rows, 0, 0);
  }

  // ----- Soft deletion -------------------------------------------------------------------------------

  /** A deleted collection stays in place, unchanged: its children keep their link and its slug is never free again. */
  lemma {:induction false} DeletedForGood(t: Table, events: seq<Event>, id: Id, parent: Option<Id>)
    requires Inv(t) && id in t.rows && t.rows[id].deleted
    ensures
      var u := Run(t, events);
      id in u.rows && u.rows[id] == t.rows[id] && Next(u, Create(t.rows[id].slug, parent, true)).1.Failed?
    decreases |events|
  {
    if events != [] {
      NextKeepsInv(t, events[0]);
      DeletedForGood(Next(t, events[0]).0, events[1..], id, parent);
    } else {
      assert id != t.nextId;
    }
  }

  // ----- What each request does, told from the rows -----------------------------------------------

  /** A row, soft-deleted or not, other than `id` has the slug. */
  predicate SlugTaken(t: Table, slug: string, id: Id) {
    exists i :: i in t.rows && i != id && t.rows[i].slug == slug
  }

  /** The collection may not hang there: it is its own parent, or one of the two would be nested twice over. */
  predicate WouldNest(t: Table, id: Id, parent: Id) {
    || parent == id
    || (parent in t.rows && !t.rows[parent].deleted &&
        (t.rows[parent].parent.Some? || exists i :: i in t.rows && t.rows[i].parent == Some(id)))
  }

  predicate IsMissing(t: Table, id: Id) { id !in t.rows || t.rows[id].deleted }

  /** A create succeeds exactly under a live parent or none, with its category and a slug no row has; it adds one row. */
  lemma CreateMeaning(t: Table, slug: string, under: Option<Id>, categoryFound: bool)
    requires Inv(t)
    ensures
      var (u, reply) := Next(t, Create(slug, under, categoryFound));
      var missing, taken := !categoryFound || (under.Some? && IsMissing(t, under.value)), SlugTaken(t, slug, t.nextId);
      && (reply == Failed(404) <==> missing) && (reply == Failed(409) <==> !missing && taken)
      && (reply.Saved? <==> !missing && !taken) && (reply.Failed? ==> u == t)
      && (reply.Saved? ==>
            && reply.id !in t.rows && u.rows.Keys == t.rows.Keys + {reply.id}
            && u.rows[reply.id] == Row(under, slug, false) && forall i | i in t.rows :: u.rows[i] == t.rows[i])
  {
    assert SlugLive(t, slug) ==> SlugTaken(t, slug, t.nextId);
  }

  /** An update is refused exactly for these reasons. */
  lemma UpdateRefusals(t: Table, id: Id, slug: Option<string>, patch: Patch, categoryFound: bool)
    requires Inv(t)
    ensures
      var reply := Next(t, Update(id, slug, patch, categoryFound)).1;
      var nests := patch.Move? && WouldNest(t, id, patch.parent);
      var missing := patch.Move? && patch.parent != id && IsMissing(t, patch.parent);
      var taken := slug.Some? && SlugTaken(t, slug.value, id);
      && (reply == Failed(404) <==> IsMissing(t, id) || missing || (!nests && !categoryFound))
      && (reply == Failed(400) <==> !IsMissing(t, id) && nests)
      && (reply == Failed(409) <==> !IsMissing(t, id) && !missing && !nests && categoryFound && taken)
      && (reply == Saved(id) <==> !IsMissing(t, id) && !missing && !nests && categoryFound && !taken)
  {
    if id in t.rows && slug.Some? && slug.value != t.rows[id].slug && SlugLive(t, slug.value) {
      assert SlugTaken(t, slug.value, id);
    }
    assert slug.Some? ==> (SlugHeld(t, slug.value, id) <==> SlugTaken(t, slug.value, id));
  }

  /** An accepted one changes its own row, as asked, and a refused one nothing. */
  lemma UpdateEffect(t: Table, id: Id, slug: Option<string>, patch: Patch, categoryFound: bool)
    ensures
      var (u, reply) := Next(t, Update(id, slug, patch, categoryFound));
      if reply != Saved(id) then reply.Failed? && u == t
      else
        && id in t.rows && u == t.(rows := u.rows) && u.rows.Keys == t.rows.Keys
        && (forall i | i in t.rows && i != id :: u.rows[i] == t.rows[i])
        && u.rows[id].deleted == t.rows[id].deleted
        && u.rows[id].slug == (if slug.Some? then slug.value else t.rows[id].slug)
        && u.rows[id].parent ==
             if patch.Move? then Some(patch.parent) else if patch.Clear? then None else t.rows[id].parent
  {}

  /** A delete succeeds exactly on a live row, and only marks it. */
  lemma DeleteMeaning(t: Table, id: Id)
    ensures
      var (u, reply) := Next(t, Delete(id));
      && (if IsMissing(t, id) then reply == Failed(404) && u == t
          else
            && reply == Saved(id) && u == t.(rows := u.rows) && u.rows.Keys == t.rows.Keys && u.rows[id].deleted
            && u.rows[id] == t.rows[id].(deleted := u.rows[id].deleted)
            && forall i | i in t.rows && i != id :: u.rows[i] == t.rows[i])
  {}

  // ----- The service ---------------------------------------------------------------------------------

  class CollectionService {
    var rows: map<Id, Row>
    var nextId: Id

    constructor ()
      ensures State() == START
    {
      rows, nextId := map[], 0;
    }

    function State(): Table
      reads this
    {
      Table(rows, nextId)
    }

    method CreateCollection(slug: string, parent: Option<Id>, categoryFound: bool) returns (reply: Reply)
      modifies this
      ensures (State(), reply) == Next(old(State()), Create(slug, parent, categoryFound))
    {
      if parent.Some? && !Live(State(), parent.value) { return Failed(404); }
      if !categoryFound { return Failed(404); }
      if SlugLive(State(), slug) { return Failed(409); }
      if SlugHeld(State(), slug, nextId) { return Failed(409); }
      rows, nextId := rows[nextId := Row(parent, slug, false)], nextId + 1;
      return Saved(nextId - 1);
    }

    method UpdateCollection(id: Id, slug: Option<string>, parent: Patch, categoryFound: bool) returns (reply: Reply)
      modifies this
      ensures (State(), reply) == Next(old(State()), Update(id, slug, parent, categoryFound))
    {
      if !Live(State(), id) { return Failed(404); }
      var collection := rows[id];
      if parent.Move? {
        if parent.parent == id { return Failed(400); }
        if !Live(State(), parent.parent) { return Failed(404); }
        if rows[parent.parent].parent.Some? { return Failed(400); }
        if HasChildren(State(), id) { return Failed(400); }
      }
      if !categoryFound { return Failed(404); }
      if slug.Some? && slug.value != "" && slug.value != collection.slug && SlugLive(State(), slug.value) {
        return Failed(409);
      }
      if slug.Some? {
        if SlugHeld(State(), slug.value, id) { return Failed(409); }
        collection := collection.(slug := slug.value);
      }
      match parent {
        case Leave =>
        case Clear => collection := collection.(parent := None);
        case Move(p) => collection := collection.(parent := Some(p));
      }
      rows := rows[id := collection];
      return Saved(id);
    }

    method DeleteCollection(id: Id) returns (reply: Reply)
      modifies this
      ensures (State(), reply) == Next(old(State()), Delete(id))
    {
      if !Live(State(), id) { return Failed(404); }
      rows := rows[id := rows[id].(deleted := true)];
      return Saved(id);
    }
  }
}
