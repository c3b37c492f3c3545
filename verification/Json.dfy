/** JavaScript values as JSON sees them, and the order of their keys. */
module Json {
  /** A UTF-16 code unit. */
  type Unit = c: int | 0 <= c < 0x1_0000

  type Text = seq<Unit>

  predicate IsNumberUnit(c: Unit) {
    0x30 <= c <= 0x39 || c == 0x2b || c == 0x2d || c == 0x2e || c == 0x45 || c == 0x65
  }

  /** A finite number, as the text `JSON.stringify` gives it. */
  type NumberText = t: Text | |t| > 0 && forall c | c in t :: IsNumberUnit(c) witness [0x30]

  datatype Value =
    | Undefined
    | Null
    | Bool(b: bool)
    | Number(text: NumberText)
    | NotFinite
    | String(s: Text)
    | Array(items: seq<Value>)
    | Object(members: seq<Member>)

  /** Members stand in insertion order, the order `Object.entries` lists them in. */
  datatype Member = Member(key: Text, value: Value)

  /** Keys of one object are distinct, at every depth. */
  ghost predicate WellFormed(v: Value) {
    match v
    case Array(items) => forall x | x in items :: WellFormed(x)
    case Object(members) => DistinctKeys(members) && forall m | m in members :: WellFormed(m.value)
    case _ => true
  }

  ghost predicate DistinctKeys(ms: seq<Member>) {
    forall i, j | 0 <= i < j < |ms| :: ms[i].key != ms[j].key
  }

  /** The source's `a < b` on strings: the first differing code unit decides. */
  predicate Less(a: Text, b: Text) {
    b != [] && (a == [] || a[0] < b[0] || (a[0] == b[0] && Less(a[1..], b[1..])))
  }

  lemma {:induction false} LessIsTotal(a: Text, b: Text)
    ensures Less(a, b) || a == b || Less(b, a)
    ensures !(Less(a, b) && Less(b, a)) && !Less(a, a)
  {
    if a != [] {
      LessIsTotal(a[1..], a[1..]);
      if b != [] {
        LessIsTotal(a[1..], b[1..]);
        assert a[0] == b[0] && a[1..] == b[1..] ==> a == [a[0]] + a[1..] == b;
      }
    }
  }

  lemma {:induction false} LessIsTransitive(a: Text, b: Text, c: Text)
    requires Less(a, b) && Less(b, c)
    ensures Less(a, c)
  {
    if a != [] && a[0] == b[0] == c[0] {
      LessIsTransitive(a[1..], b[1..], c[1..]);
    }
  }

  /** Members the serialiser keeps. */
  function Defined(ms: seq<Member>): (kept: seq<Member>)
    ensures forall m :: m in kept <==> m in ms && m.value != Undefined
  {
    if ms == [] then []
    else (if ms[0].value == Undefined then [] else [ms[0]]) + Defined(ms[1..])
  }

  function Insert(m: Member, sorted: seq<Member>): (r: seq<Member>)
    ensures |r| == |sorted| + 1
    ensures forall x :: x in r <==> x == m || x in sorted
  {
    if sorted == [] || !Less(sorted[0].key, m.key) then [m] + sorted
    else
      var r := [sorted[0]] + Insert(m, sorted[1..]);
      assert forall x :: x in sorted <==> x == sorted[0] || x in sorted[1..];
      r
  }

  /** The source's stable sort by key. */
  function Sorted(ms: seq<Member>): (r: seq<Member>)
    ensures |r| == |ms|
    ensures forall x :: x in r <==> x in ms
  {
    if ms == [] then [] else Insert(ms[0], Sorted(ms[1..]))
  }

  ghost predicate InOrder(ms: seq<Member>) {
    forall i, j | 0 <= i < j < |ms| :: Less(ms[i].key, ms[j].key)
  }

  lemma {:induction false} InsertKeepsOrder(m: Member, sorted: seq<Member>)
    requires InOrder(sorted) && forall x | x in sorted :: x.key != m.key
    ensures InOrder(Insert(m, sorted))
  {
    if sorted != [] {
      LessIsTotal(sorted[0].key, m.key);
      if Less(sorted[0].key, m.key) {
        InsertKeepsOrder(m, sorted[1..]);
        var rest := Insert(m, sorted[1..]);
        forall j | 0 <= j < |rest| ensures Less(sorted[0].key, rest[j].key) {
          assert rest[j] in rest;
          assert rest[j] in sorted[1..] ==> exists i :: 1 <= i < |sorted| && sorted[i] == rest[j];
        }
      } else {
        forall j | 0 <= j < |sorted| ensures Less(m.key, sorted[j].key) {
          if j > 0 { LessIsTransitive(m.key, sorted[0].key, sorted[j].key); }
        }
      }
    }
  }

  lemma {:induction false} SortedIsInOrder(ms: seq<Member>)
    requires DistinctKeys(ms)
    ensures InOrder(Sorted(ms))
  {
    if ms != [] {
      SortedIsInOrder(ms[1..]);
      InsertKeepsOrder(ms[0], Sorted(ms[1..]));
    }
  }

  lemma {:induction false} DefinedKeepsDistinct(ms: seq<Member>)
    requires DistinctKeys(ms)
    ensures DistinctKeys(Defined(ms))
  {
    if ms != [] {
      DefinedKeepsDistinct(ms[1..]);
      forall m | m in Defined(ms[1..]) ensures m.key != ms[0].key {}
    }
  }

  /** Two lists in order with the same keys list them at the same places. */
  lemma {:induction false} OrderIsUnique(xs: seq<Member>, ys: seq<Member>)
    requires InOrder(xs) && InOrder(ys) && Keys(xs) == Keys(ys)
    ensures |xs| == |ys| && forall i | 0 <= i < |xs| :: xs[i].key == ys[i].key
  {
    assert xs != [] ==> xs[0].key in Keys(xs);
    assert ys != [] ==> ys[0].key in Keys(ys);
    if xs != [] && ys != [] {
      var x, y := xs[0], ys[0];
      LessIsTotal(x.key, y.key);
      assert x.key == y.key;
      TailKeys(xs);
      TailKeys(ys);
      OrderIsUnique(xs[1..], ys[1..]);
    }
  }

  ghost function Keys(ms: seq<Member>): set<Text> {
    set m | m in ms :: m.key
  }

  lemma TailKeys(ms: seq<Member>)
    requires InOrder(ms) && ms != []
    ensures InOrder(ms[1..]) && Keys(ms[1..]) == Keys(ms) - {ms[0].key}
  {
    forall m | m in ms[1..] ensures m.key != ms[0].key {
      LessIsTotal(m.key, m.key);
    }
    assert ms == [ms[0]] + ms[1..];
  }
}
