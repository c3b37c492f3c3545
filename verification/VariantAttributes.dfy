/**
 Attribute labels of imported variants, upserted into one tenant's attribute tables, with
 and without the cache that an import shares between its variants.
 */
module VariantAttributes {
  import opened Options

  type VariantId = nat

  /** What JavaScript knows about text, and the swatch table. */
  datatype Locale = Locale(
    trim: string -> string, lower: string -> string, upper: string -> string, isSpace: char -> bool,
    palette: map<string, string>)

  datatype Label = Label(code: string, value: string)

  datatype ValueRow = ValueRow(id: nat, caption: string, swatch: Option<string>)

  /** A value row is unique per attribute and value. */
  datatype ValueKey = ValueKey(attribute: nat, value: string)

  datatype Tables = Tables(
    attributes: map<string, nat>, values: map<ValueKey, ValueRow>, links: map<VariantId, set<nat>>, nextId: nat)

  const EMPTY := Tables(map[], map[], map[], 0)

  // ----- Labels and swatches -----------------------------------------------------------------

  function Capitalize(l: Locale, value: string): string {
    if value == "" then value else l.upper(value[..1]) + value[1..]
  }

  /** Length of the longest prefix of characters that `p` holds of. */
  function Span(p: char -> bool, s: string): (n: nat)
    ensures n <= |s| && (forall i | 0 <= i < n :: p(s[i])) && (n < |s| ==> !p(s[n]))
  {
    if s != "" && p(s[0]) then Span(p, s[1..]) + 1 else 0
  }

  predicate IsLetter(c: char) { 'a' <= c <= 'z' || 'A' <= c <= 'Z' }

  predicate IsDigit(c: char) { '0' <= c <= '9' }

  /** Length of a SKU code with the space after it: two to six letters, two to five digits, space. */
  function SkuPrefix(l: Locale, value: string): (n: nat)
    ensures n <= |value|
  {
    var letters := Span(IsLetter, value);
    var digits := Span(IsDigit, value[letters..]);
    var spaces := Span(l.isSpace, value[letters + digits..]);
    if 2 <= letters <= 6 && 2 <= digits <= 5 && spaces >= 1 then letters + digits + spaces else 0
  }

  predicate IsColor(code: string) { code == "color" || code == "colour" }

  function DisplayLabel(l: Locale, pair: Label): string {
    if !IsColor(pair.code) then Capitalize(l, pair.value)
    else
      var stripped := l.trim(pair.value[SkuPrefix(l, pair.value)..]);
      Capitalize(l, if stripped != "" then stripped else pair.value)
  }

  /** Runs of spaces and underscores become one dash. */
  function Dashed(l: Locale, s: string): string
    decreases |s|
  {
    if s == "" then ""
    else
      var run := Span((c: char) => l.isSpace(c) || c == '_', s);
      if run > 0 then "-" + Dashed(l, s[run..]) else s[..1] + Dashed(l, s[1..])
  }

  function Swatch(l: Locale, pair: Label): Option<string> {
    var key := Dashed(l, l.lower(l.trim(pair.value)));
    if IsColor(pair.code) && key in l.palette then Some(l.palette[key]) else None
  }

  /** The entries of `attrs` that say something, normalised. */
  function Labels(l: Locale, attrs: seq<(string, string)>): seq<Label> {
    if attrs == [] then []
    else
      var pair := Label(l.lower(l.trim(attrs[0].0)), l.trim(attrs[0].1));
      (if pair.code == "" || pair.value == "" then [] else [pair]) + Labels(l, attrs[1..])
  }

  /** What an upsert asks of a label. The cache's correctness does not depend on the answers. */
  datatype Rules = Rules(caption: Label -> string, swatch: Label -> Option<string>, recaptions: Label -> bool)

  function RulesOf(l: Locale): Rules {
    Rules(
      (pair: Label) => DisplayLabel(l, pair), (pair: Label) => Swatch(l, pair),
      (pair: Label) => SkuPrefix(l, pair.value) > 0)
  }

  // ----- One label ---------------------------------------------------------------------------

  /** A new value row, or the existing one changed only where the label says so. */
  function Row(rules: Rules, values: map<ValueKey, ValueRow>, key: ValueKey, id: nat, pair: Label): ValueRow {
    var swatch := rules.swatch(pair);
    if key !in values then ValueRow(id, rules.caption(pair), swatch)
    else values[key].(
      caption := if rules.recaptions(pair) then rules.caption(pair) else values[key].caption,
      swatch := if swatch.Some? then swatch else values[key].swatch)
  }

  /** The two upserts of one label. */
  function Upserted(rules: Rules, t: Tables, pair: Label): Tables {
    var attribute := if pair.code in t.attributes then t.attributes[pair.code] else t.nextId;
    var id := if pair.code in t.attributes then t.nextId else t.nextId + 1;
    var key := ValueKey(attribute, pair.value);
    t.(attributes := t.attributes[pair.code := attribute],
       values := t.values[key := Row(rules, t.values, key, id, pair)],
       nextId := if key in t.values then id else id + 1)
  }

  predicate HasRow(t: Tables, pair: Label) {
    pair.code in t.attributes && ValueKey(t.attributes[pair.code], pair.value) in t.values
  }

  function RowOf(t: Tables, pair: Label): ValueRow
    requires HasRow(t, pair)
  {
    t.values[ValueKey(t.attributes[pair.code], pair.value)]
  }

  function CacheKey(pair: Label): string { pair.code + "::" + pair.value }

  // ----- A variant, and a run of variants ----------------------------------------------------

  function Plain(rules: Rules, t: Tables, labels: seq<Label>): (r: (Tables, seq<nat>))
    decreases |labels|
  {
    if labels == [] then (t, [])
    else
      var u := Upserted(rules, t, labels[0]);
      assert HasRow(u, labels[0]);
      var r := Plain(rules, u, labels[1..]);
      (r.0, [RowOf(u, labels[0]).id] + r.1)
  }

  function Cached(rules: Rules, t: Tables, cache: map<string, nat>, labels: seq<Label>)
    : (r: (Tables, map<string, nat>, seq<nat>))
    decreases |labels|
  {
    if labels == [] then (t, cache, [])
    else if CacheKey(labels[0]) in cache then
      var r := Cached(rules, t, cache, labels[1..]);
      (r.0, r.1, [cache[CacheKey(labels[0])]] + r.2)
    else
      var u := Upserted(rules, t, labels[0]);
      assert HasRow(u, labels[0]);
      var id := RowOf(u, labels[0]).id;
      var r := Cached(rules, u, cache[CacheKey(labels[0]) := id], labels[1..]);
      (r.0, r.1, [id] + r.2)
  }

  function Linked(t: Tables, variant: VariantId, ids: seq<nat>): Tables {
    t.(links := t.links[variant := set id | id in ids])
  }

  datatype Item = Item(variant: VariantId, labels: seq<Label>)

  function PlainRun(rules: Rules, t: Tables, items: seq<Item>): Tables
    decreases |items|
  {
    if items == [] then t
    else
      var (u, ids) := Plain(rules, t, items[0].labels);
      PlainRun(rules, Linked(u, items[0].variant, ids), items[1..])
  }

  function CachedRun(rules: Rules, t: Tables, cache: map<string, nat>, items: seq<Item>): Tables
    decreases |items|
  {
    if items == [] then t
    else
      var (u, kept, ids) := Cached(rules, t, cache, items[0].labels);
      CachedRun(rules, Linked(u, items[0].variant, ids), kept, items[1..])
  }

  function LabelsOf(items: seq<Item>): set<Label> {
    set i, pair | 0 <= i < |items| && pair in items[i].labels :: pair
  }

  // ----- The cache changes nothing -------------------------------------------------------------

  ghost predicate Wired(t: Tables) {
    && (forall c | c in t.attributes :: t.attributes[c] < t.nextId)
    && (forall c, d | c in t.attributes && d in t.attributes && t.attributes[c] == t.attributes[d] :: c == d)
    && (forall k | k in t.values :: exists c :: c in t.attributes && t.attributes[c] == k.attribute)
  }

  /** Upserting the label once more would change nothing. */
  ghost predicate Settled(rules: Rules, t: Tables, pair: Label) {
    HasRow(t, pair) &&
    (rules.recaptions(pair) ==> RowOf(t, pair).caption == rules.caption(pair)) &&
    (rules.swatch(pair).Some? ==> RowOf(t, pair).swatch == rules.swatch(pair))
  }

  lemma OwnersStay(t: Tables, code: string, attribute: nat, k: ValueKey)
    requires Wired(t) && (code in t.attributes ==> attribute == t.attributes[code])
    requires k in t.values || k.attribute == attribute
    ensures
      var next := t.attributes[code := attribute];
      exists c :: c in next && next[c] == k.attribute
  {
    var next := t.attributes[code := attribute];
    if k.attribute == attribute {
      assert next[code] == k.attribute;
    } else {
      var c :| c in t.attributes && t.attributes[c] == k.attribute;
      assert next[c] == k.attribute;
    }
  }

  lemma UpsertWired(rules: Rules, t: Tables, pair: Label)
    requires Wired(t)
    ensures Wired(Upserted(rules, t, pair))
  {
    var u := Upserted(rules, t, pair);
    var attribute := u.attributes[pair.code];
    assert u.attributes == t.attributes[pair.code := attribute] && t.nextId <= u.nextId;
    forall k | k in u.values ensures exists c :: c in u.attributes && u.attributes[c] == k.attribute {
      assert k in t.values || k.attribute == attribute;
      OwnersStay(t, pair.code, attribute, k);
    }
  }

  lemma SettledUpsert(rules: Rules, t: Tables, pair: Label)
    requires Settled(rules, t, pair)
    ensures Upserted(rules, t, pair) == t
  {
    var key := ValueKey(t.attributes[pair.code], pair.value);
    assert t.attributes[pair.code := t.attributes[pair.code]] == t.attributes;
    assert t.values[key := t.values[key]] == t.values;
  }

  /** The cache holds the label's row id, and the label is settled. */
  ghost predicate Remembered(rules: Rules, t: Tables, cache: map<string, nat>, pair: Label) {
    Settled(rules, t, pair) && CacheKey(pair) in cache && cache[CacheKey(pair)] == RowOf(t, pair).id
  }

  ghost predicate KeysOf(cache: map<string, nat>, seen: set<Label>) {
    forall k | k in cache :: exists pair :: pair in seen && CacheKey(pair) == k
  }

  /** The cache holds the row ids of the labels seen so far, all of which are settled. */
  ghost predicate CacheOk(rules: Rules, t: Tables, cache: map<string, nat>, seen: set<Label>) {
    && Wired(t)
    && (forall pair | pair in seen :: Remembered(rules, t, cache, pair))
    && KeysOf(cache, seen)
  }

  ghost predicate NoCollision(labels: set<Label>) {
    forall x, y | x in labels && y in labels && CacheKey(x) == CacheKey(y) :: x == y
  }

  lemma SettledStays(rules: Rules, t: Tables, pair: Label, other: Label)
    requires Wired(t) && Settled(rules, t, other) && other != pair
    ensures Settled(rules, Upserted(rules, t, pair), other)
    ensures RowOf(Upserted(rules, t, pair), other) == RowOf(t, other)
  {}

  lemma CachedStays(rules: Rules, t: Tables, cache: map<string, nat>, pair: Label, id: nat, other: Label)
    requires Wired(t) && Remembered(rules, t, cache, other) && CacheKey(pair) !in cache
    ensures Remembered(rules, Upserted(rules, t, pair), cache[CacheKey(pair) := id], other)
  {
    SettledStays(rules, t, pair, other);
  }

  lemma UpsertKeepsCache(rules: Rules, t: Tables, cache: map<string, nat>, seen: set<Label>, pair: Label)
    requires CacheOk(rules, t, cache, seen) && CacheKey(pair) !in cache
    ensures
      var u := Upserted(rules, t, pair);
      HasRow(u, pair) && CacheOk(rules, u, cache[CacheKey(pair) := RowOf(u, pair).id], seen + {pair})
  {
    var u := Upserted(rules, t, pair);
    UpsertWired(rules, t, pair);
    var id := RowOf(u, pair).id;
    KeysGrow(cache, seen, pair, id);
    forall x | x in seen ensures Remembered(rules, u, cache[CacheKey(pair) := id], x) {
      CachedStays(rules, t, cache, pair, id, x);
    }
    assert Remembered(rules, u, cache[CacheKey(pair) := id], pair);
  }

  lemma KeysGrow(cache: map<string, nat>, seen: set<Label>, pair: Label, id: nat)
    requires KeysOf(cache, seen)
    ensures KeysOf(cache[CacheKey(pair) := id], seen + {pair})
  {
    var next := cache[CacheKey(pair) := id];
    forall k | k in next ensures exists x :: x in seen + {pair} && CacheKey(x) == k {
      if k in cache {
        var x :| x in seen && CacheKey(x) == k;
        assert x in seen + {pair};
      } else {
        assert pair in seen + {pair};
      }
    }
  }

  lemma PlainHit(rules: Rules, t: Tables, labels: seq<Label>)
    requires labels != [] && Settled(rules, t, labels[0])
    ensures
      var r := Plain(rules, t, labels[1..]);
      Plain(rules, t, labels) == (r.0, [RowOf(t, labels[0]).id] + r.1)
  {
    SettledUpsert(rules, t, labels[0]);
  }

  lemma {:induction false} CachedIsPlain(
    rules: Rules, t: Tables, cache: map<string, nat>, seen: set<Label>, labels: seq<Label>, all: set<Label>)
    returns (more: set<Label>)
    requires CacheOk(rules, t, cache, seen) && seen <= all && NoCollision(all)
    requires forall x | x in labels :: x in all
    ensures
      var c, p := Cached(rules, t, cache, labels), Plain(rules, t, labels);
      c.0 == p.0 && c.2 == p.1 && CacheOk(rules, c.0, c.1, more) && more <= all
    decreases |labels|
  {
    if labels == [] {
      more := seen;
    } else if CacheKey(labels[0]) in cache {
      assert labels[0] in labels;
      PlainHit(rules, t, labels);
      more := CachedIsPlain(rules, t, cache, seen, labels[1..], all);
    } else {
      assert labels[0] in labels;
      assert NoCollision(seen + {labels[0]});
      UpsertKeepsCache(rules, t, cache, seen, labels[0]);
      var u := Upserted(rules, t, labels[0]);
      more := CachedIsPlain(
        rules, u, cache[CacheKey(labels[0]) := RowOf(u, labels[0]).id], seen + {labels[0]}, labels[1..], all);
    }
  }

  lemma {:induction false} CachedRunIsPlain(
    rules: Rules, t: Tables, cache: map<string, nat>, seen: set<Label>, items: seq<Item>, all: set<Label>)
    requires CacheOk(rules, t, cache, seen) && seen <= all && NoCollision(all) && LabelsOf(items) <= all
    ensures CachedRun(rules, t, cache, items) == PlainRun(rules, t, items)
    decreases |items|
  {
    if items != [] {
      forall x | x in items[0].labels ensures x in all { assert x in LabelsOf(items); }
      var more := CachedIsPlain(rules, t, cache, seen, items[0].labels, all);
      var c := Cached(rules, t, cache, items[0].labels);
      CachedRunIsPlain(rules, Linked(c.0, items[0].variant, c.2), c.1, more, items[1..], all);
    }
  }

  // ----- ... exactly when no two labels share a key ----------------------------------------------

  /** Rows made through the cache have keys of their own, all of them in the cache. */
  ghost predicate RowsKeyed(t: Tables, cache: map<string, nat>) {
    && Wired(t)
    && (forall x | HasRow(t, x) :: CacheKey(x) in cache)
    && (forall x, y | HasRow(t, x) && HasRow(t, y) && CacheKey(x) == CacheKey(y) :: x == y)
  }

  /** An upsert adds no row but its label's own. */
  lemma UpsertRows(rules: Rules, t: Tables, pair: Label, x: Label)
    requires Wired(t)
    ensures HasRow(Upserted(rules, t, pair), x) <==> HasRow(t, x) || x == pair
  {
    var u := Upserted(rules, t, pair);
    var attribute := u.attributes[pair.code];
    assert forall k :: k in u.values <==> k in t.values || k == ValueKey(attribute, pair.value);
    if x.code != pair.code {
      assert x.code in u.attributes <==> x.code in t.attributes;
      assert x.code in t.attributes ==> t.attributes[x.code] != attribute;
    }
  }

  lemma {:induction false} CachedKeepsKeyed(rules: Rules, t: Tables, cache: map<string, nat>, labels: seq<Label>)
    requires RowsKeyed(t, cache)
    ensures RowsKeyed(Cached(rules, t, cache, labels).0, Cached(rules, t, cache, labels).1)
    decreases |labels|
  {
    if labels != [] {
      var pair := labels[0];
      if CacheKey(pair) in cache {
        CachedKeepsKeyed(rules, t, cache, labels[1..]);
      } else {
        var u := Upserted(rules, t, pair);
        UpsertWired(rules, t, pair);
        forall x ensures HasRow(u, x) <==> HasRow(t, x) || x == pair { UpsertRows(rules, t, pair, x); }
        CachedKeepsKeyed(rules, u, cache[CacheKey(pair) := RowOf(u, pair).id], labels[1..]);
      }
    }
  }

  lemma {:induction false} CachedRunKeyed(rules: Rules, t: Tables, cache: map<string, nat>, items: seq<Item>)
    returns (kept: map<string, nat>)
    requires RowsKeyed(t, cache)
    ensures RowsKeyed(CachedRun(rules, t, cache, items), kept)
    decreases |items|
  {
    kept := cache;
    if items != [] {
      CachedKeepsKeyed(rules, t, cache, items[0].labels);
      var c := Cached(rules, t, cache, items[0].labels);
      var u := Linked(c.0, items[0].variant, c.2);
      assert forall x :: HasRow(u, x) <==> HasRow(c.0, x);
      kept := CachedRunKeyed(rules, u, c.1, items[1..]);
    }
  }

  lemma {:induction false} PlainMakesRows(rules: Rules, t: Tables, labels: seq<Label>, x: Label)
    requires Wired(t)
    ensures Wired(Plain(rules, t, labels).0)
    ensures HasRow(t, x) || x in labels ==> HasRow(Plain(rules, t, labels).0, x)
    decreases |labels|
  {
    if labels != [] {
      UpsertWired(rules, t, labels[0]);
      UpsertRows(rules, t, labels[0], x);
      assert x in labels ==> x == labels[0] || x in labels[1..];
      PlainMakesRows(rules, Upserted(rules, t, labels[0]), labels[1..], x);
    }
  }

  lemma {:induction false} PlainRunMakesRows(rules: Rules, t: Tables, items: seq<Item>, x: Label)
    requires Wired(t)
    ensures HasRow(t, x) || x in LabelsOf(items) ==> HasRow(PlainRun(rules, t, items), x)
    decreases |items|
  {
    if items != [] {
      var (u, ids) := Plain(rules, t, items[0].labels);
      PlainMakesRows(rules, t, items[0].labels, x);
      PlainRunMakesRows(rules, Linked(u, items[0].variant, ids), items[1..], x);
    }
  }

  /**
   A shared cache leaves the same attributes, values, captions, swatches and links as none,
   on whatever tables the run starts, exactly when no two labels of the run share a key.
   */
  lemma CacheRefinesIff(rules: Rules, items: seq<Item>)
    ensures (forall t | Wired(t) :: CachedRun(rules, t, map[], items) == PlainRun(rules, t, items))
            <==> NoCollision(LabelsOf(items))
  {
    if NoCollision(LabelsOf(items)) {
      forall t | Wired(t) ensures CachedRun(rules, t, map[], items) == PlainRun(rules, t, items) {
        CachedRunIsPlain(rules, t, map[], {}, items, LabelsOf(items));
      }
    } else {
      var x, y :| x in LabelsOf(items) && y in LabelsOf(items) && CacheKey(x) == CacheKey(y) && x != y;
      PlainRunMakesRows(rules, EMPTY, items, x);
      PlainRunMakesRows(rules, EMPTY, items, y);
      var kept := CachedRunKeyed(rules, EMPTY, map[], items);
      assert CachedRun(rules, EMPTY, map[], items) != PlainRun(rules, EMPTY, items);
    }
  }

  /** Codes without a colon never collide. */
  lemma ColonFreeCodes(labels: set<Label>)
    requires forall x | x in labels :: ':' !in x.code
    ensures NoCollision(labels)
  {
    forall x, y | x in labels && y in labels && CacheKey(x) == CacheKey(y) ensures x == y {
      var k := CacheKey(x);
      assert k == x.code + ("::" + x.value) == y.code + ("::" + y.value);
      FirstColon(x.code, "::" + x.value);
      FirstColon(y.code, "::" + y.value);
      assert x.value == k[|x.code| + 2..] == y.value;
    }
  }

  function UpToColon(s: string): string {
    if s == "" || s[0] == ':' then "" else s[..1] + UpToColon(s[1..])
  }

  lemma {:induction false} FirstColon(a: string, b: string)
    requires ':' !in a && b != "" && b[0] == ':'
    ensures UpToColon(a + b) == a
  {
    if a != "" {
      assert (a + b)[1..] == a[1..] + b && (a + b)[..1] == a[..1];
      assert a[0] in a && a[0] != ':';
      FirstColon(a[1..], b);
    } else {
      assert a + b == b;
    }
  }

  /** Codes with a colon may. */
  lemma ColonCodesCollide()
    ensures !NoCollision({Label("a:", "b"), Label("a", ":b")})
  {
    var x, y := Label("a:", "b"), Label("a", ":b");
    assert CacheKey(x) == "a:::b" == CacheKey(y);
    assert x.code != y.code;
  }

  // ----- What a variant's upsert leaves ----------------------------------------------------------

  /** Later labels leave a settled row as it is. */
  lemma {:induction false} PlainKeepsRow(rules: Rules, t: Tables, labels: seq<Label>, x: Label)
    requires Wired(t) && Settled(rules, t, x)
    ensures
      var u := Plain(rules, t, labels).0;
      Settled(rules, u, x) && RowOf(u, x) == RowOf(t, x)
    decreases |labels|
  {
    if labels != [] {
      UpsertWired(rules, t, labels[0]);
      if labels[0] == x {
        SettledUpsert(rules, t, x);
      } else {
        SettledStays(rules, t, labels[0], x);
      }
      PlainKeepsRow(rules, Upserted(rules, t, labels[0]), labels[1..], x);
    }
  }

  /** Every label of the variant ends settled, and the linked ids are the ids of the labels' rows. */
  lemma {:induction false} PlainSettles(rules: Rules, t: Tables, labels: seq<Label>)
    requires Wired(t)
    ensures
      var r := Plain(rules, t, labels);
      |r.1| == |labels| && forall i | 0 <= i < |labels| ::
        Settled(rules, r.0, labels[i]) && r.1[i] == RowOf(r.0, labels[i]).id
    decreases |labels|
  {
    if labels != [] {
      var u := Upserted(rules, t, labels[0]);
      UpsertWired(rules, t, labels[0]);
      PlainKeepsRow(rules, u, labels[1..], labels[0]);
      PlainSettles(rules, u, labels[1..]);
      var r := Plain(rules, t, labels);
      forall i | 0 <= i < |labels|
        ensures Settled(rules, r.0, labels[i]) && r.1[i] == RowOf(r.0, labels[i]).id
      {
        if i > 0 { assert labels[i] == labels[1..][i - 1]; }
      }
    }
  }

  /** A caption an admin has edited stays, unless its own label asks for a new one. */
  lemma {:induction false} CaptionsStay(rules: Rules, t: Tables, labels: seq<Label>, x: Label)
    requires Wired(t) && HasRow(t, x)
    requires x in labels ==> !rules.recaptions(x)
    ensures
      var u := Plain(rules, t, labels).0;
      HasRow(u, x) && RowOf(u, x).caption == RowOf(t, x).caption && RowOf(u, x).id == RowOf(t, x).id
    decreases |labels|
  {
    if labels != [] {
      assert labels[0] in labels;
      UpsertWired(rules, t, labels[0]);
      CaptionsStay(rules, Upserted(rules, t, labels[0]), labels[1..], x);
    }
  }

  /** Value rows have ids of their own. */
  ghost predicate IdsDiffer(t: Tables) {
    && (forall k | k in t.values :: t.values[k].id < t.nextId)
    && (forall j, k | j in t.values && k in t.values && t.values[j].id == t.values[k].id :: j == k)
  }

  /** No two labels are ever linked through one id. */
  lemma {:induction false} IdsStayDifferent(rules: Rules, t: Tables, labels: seq<Label>)
    requires IdsDiffer(t)
    ensures IdsDiffer(Plain(rules, t, labels).0)
    decreases |labels|
  {
    if labels != [] { IdsStayDifferent(rules, Upserted(rules, t, labels[0]), labels[1..]); }
  }

  /** A variant's links are replaced by its labels' rows, and no other variant's links change. */
  lemma {:induction false} LinksMeaning(rules: Rules, t: Tables, variant: VariantId, labels: seq<Label>)
    requires Wired(t)
    ensures
      var r := Plain(rules, t, labels);
      var u := Linked(r.0, variant, r.1);
      && (forall pair | pair in labels :: HasRow(u, pair))
      && variant in u.links && u.links == t.links[variant := u.links[variant]]
      && forall id :: id in u.links[variant] <==>
           exists pair :: pair in labels && HasRow(u, pair) && RowOf(u, pair).id == id
  {
    PlainSettles(rules, t, labels);
    PlainKeepsLinks(rules, t, labels);
    var r := Plain(rules, t, labels);
    var u := Linked(r.0, variant, r.1);
    assert forall x :: HasRow(u, x) == HasRow(r.0, x);
    forall pair | pair in labels ensures HasRow(u, pair) {
      var i :| 0 <= i < |labels| && labels[i] == pair;
      assert Settled(rules, r.0, labels[i]);
    }
    forall id ensures id in r.1 <==> exists pair :: pair in labels && HasRow(u, pair) && RowOf(u, pair).id == id {
      if id in r.1 {
        var i :| 0 <= i < |r.1| && r.1[i] == id;
        assert labels[i] in labels && Settled(rules, r.0, labels[i]);
      }
      if pair :| pair in labels && HasRow(u, pair) && RowOf(u, pair).id == id {
        var i :| 0 <= i < |labels| && labels[i] == pair;
        assert Settled(rules, r.0, labels[i]) && r.1[i] == id;
      }
    }
  }

  lemma {:induction false} PlainKeepsLinks(rules: Rules, t: Tables, labels: seq<Label>)
    ensures Plain(rules, t, labels).0.links == t.links
    decreases |labels|
  {
    if labels != [] { PlainKeepsLinks(rules, Upserted(rules, t, labels[0]), labels[1..]); }
  }

  // ----- Labels, captions and swatches, told from the text -----------------------------------------

  /** Attributes that say nothing are skipped, the others become labels in turn. */
  lemma {:induction false} LabelsJoin(l: Locale, attrs: seq<(string, string)>, more: seq<(string, string)>)
    ensures Labels(l, attrs + more) == Labels(l, attrs) + Labels(l, more)
  {
    if attrs == [] {
      assert attrs + more == more;
    } else {
      assert (attrs + more)[1..] == attrs[1..] + more;
      LabelsJoin(l, attrs[1..], more);
    }
  }

  lemma LabelOf(l: Locale, code: string, value: string)
    ensures Labels(l, [(code, value)]) ==
      if l.lower(l.trim(code)) != "" && l.trim(value) != ""
      then [Label(l.lower(l.trim(code)), l.trim(value))] else []
  {
    assert [(code, value)][1..] == [];
  }

  /** The first `n` characters are two to six letters, two to five digits, and all the space after them. */
  predicate IsSku(l: Locale, value: string, letters: nat, digits: nat, n: nat) {
    && 2 <= letters <= 6 && 2 <= digits <= 5 && letters + digits < n <= |value|
    && (forall i | 0 <= i < letters :: IsLetter(value[i]))
    && (forall i | letters <= i < letters + digits :: IsDigit(value[i]))
    && (forall i | letters + digits <= i < n :: l.isSpace(value[i]))
    && (n < |value| ==> !l.isSpace(value[n]))
  }

  lemma {:induction false} SpanIs(p: char -> bool, s: string, n: nat)
    requires n <= |s| && (forall i | 0 <= i < n :: p(s[i])) && (n < |s| ==> !p(s[n]))
    ensures Span(p, s) == n
  {
    if n > 0 {
      assert p(s[0]);
      assert forall i | 0 <= i < n - 1 :: s[1..][i] == s[i + 1];
      SpanIs(p, s[1..], n - 1);
    }
  }

  lemma SkuIsPrefix(l: Locale, value: string, letters: nat, digits: nat, n: nat)
    requires IsSku(l, value, letters, digits, n) && forall c | IsDigit(c) :: !l.isSpace(c)
    ensures SkuPrefix(l, value) == n
  {
    var tail, spaces := value[letters..], value[letters + digits..];
    assert value[letters] == tail[0] && IsDigit(value[letters]);
    SpanIs(IsLetter, value, letters);
    assert forall i | 0 <= i < digits :: tail[i] == value[letters + i];
    assert tail[digits] == value[letters + digits] == spaces[0];
    SpanIs(IsDigit, tail, digits);
    assert forall i | 0 <= i < n - letters - digits :: spaces[i] == value[letters + digits + i];
    assert n < |value| ==> spaces[n - letters - digits] == value[n];
    SpanIs(l.isSpace, spaces, n - letters - digits);
  }

  lemma PrefixIsSku(l: Locale, value: string)
    requires SkuPrefix(l, value) > 0
    ensures exists letters: nat, digits: nat :: IsSku(l, value, letters, digits, SkuPrefix(l, value))
  {
    var n := SkuPrefix(l, value);
    var letters := Span(IsLetter, value);
    var digits := Span(IsDigit, value[letters..]);
    var spaces := Span(l.isSpace, value[letters + digits..]);
    forall i | letters <= i < letters + digits ensures IsDigit(value[i]) {
      assert value[i] == value[letters..][i - letters];
    }
    forall i | letters + digits <= i < n ensures l.isSpace(value[i]) {
      assert value[i] == value[letters + digits..][i - letters - digits];
    }
    assert n < |value| ==> value[n] == value[letters + digits..][spaces];
    assert IsSku(l, value, letters, digits, n);
  }

  /** The prefix that is dropped is exactly such a code. */
  lemma SkuPrefixIff(l: Locale, value: string, n: nat)
    requires n > 0 && forall c | IsDigit(c) :: !l.isSpace(c)
    ensures SkuPrefix(l, value) == n <==> exists letters: nat, digits: nat :: IsSku(l, value, letters, digits, n)
  {
    if letters: nat, digits: nat :| IsSku(l, value, letters, digits, n) { SkuIsPrefix(l, value, letters, digits, n); }
    if SkuPrefix(l, value) == n { PrefixIsSku(l, value); }
  }

  predicate IsCapitalized(l: Locale, value: string, caption: string) {
    caption == if value == "" then "" else l.upper(value[..1]) + value[1..]
  }

  /** A colour is shown without its SKU code, unless nothing else is there; everything with a capital. */
  lemma CaptionMeaning(l: Locale, pair: Label, letters: nat, digits: nat, n: nat)
    requires forall c | IsDigit(c) :: !l.isSpace(c)
    ensures
      var caption, rest := RulesOf(l).caption(pair), l.trim(pair.value[if n <= |pair.value| then n else 0..]);
      && (pair.code !in {"color", "colour"} ==> IsCapitalized(l, pair.value, caption))
      && (pair.code in {"color", "colour"} && IsSku(l, pair.value, letters, digits, n) ==>
            IsCapitalized(l, if rest != "" then rest else pair.value, caption))
      && (pair.code in {"color", "colour"} && (forall i: nat, j: nat, k: nat :: !IsSku(l, pair.value, i, j, k)) ==>
            IsCapitalized(l, if l.trim(pair.value) != "" then l.trim(pair.value) else pair.value, caption))
    ensures RulesOf(l).recaptions(pair) <==> exists i: nat, j: nat, k: nat :: IsSku(l, pair.value, i, j, k)
  {
    if IsSku(l, pair.value, letters, digits, n) { SkuPrefixIff(l, pair.value, n); }
    var k := SkuPrefix(l, pair.value);
    if k > 0 { SkuPrefixIff(l, pair.value, k); }
    if i: nat, j: nat, m: nat :| IsSku(l, pair.value, i, j, m) { SkuPrefixIff(l, pair.value, m); }
    assert pair.value[0..] == pair.value;
  }

  predicate IsBlank(l: Locale, c: char) { l.isSpace(c) || c == '_' }

  lemma {:induction false} DashedPlain(l: Locale, s: string)
    requires forall c | c in s :: !IsBlank(l, c)
    ensures Dashed(l, s) == s
  {
    if s != "" {
      assert s[0] in s;
      DashedPlain(l, s[1..]);
      assert s[..1] + s[1..] == s;
    }
  }

  lemma DashedBlank(l: Locale, run: string, rest: string)
    requires run != "" && (forall c | c in run :: IsBlank(l, c)) && (rest != "" ==> !IsBlank(l, rest[0]))
    ensures Dashed(l, run + rest) == "-" + Dashed(l, rest)
  {
    var s := run + rest;
    assert forall i | 0 <= i < |run| :: s[i] == run[i] && run[i] in run;
    SpanIs((c: char) => l.isSpace(c) || c == '_', s, |run|);
    assert s[|run|..] == rest;
  }

  /** A run of spaces and underscores becomes one dash. */
  lemma {:induction false} DashedRun(l: Locale, first: string, run: string, rest: string)
    requires forall c | c in first :: !IsBlank(l, c)
    requires run != "" && (forall c | c in run :: IsBlank(l, c)) && (rest != "" ==> !IsBlank(l, rest[0]))
    ensures Dashed(l, first + (run + rest)) == first + ("-" + Dashed(l, rest))
    decreases |first|
  {
    if first == "" {
      DashedBlank(l, run, rest);
      assert first + (run + rest) == run + rest && first + ("-" + Dashed(l, rest)) == "-" + Dashed(l, rest);
    } else {
      DashedRun(l, first[1..], run, rest);
      DashedStep(l, first, run + rest);
      assert first[..1] + (first[1..] + ("-" + Dashed(l, rest))) == first + ("-" + Dashed(l, rest));
    }
  }

  lemma DashedStep(l: Locale, first: string, rest: string)
    requires first != "" && !IsBlank(l, first[0])
    ensures Dashed(l, first + rest) == first[..1] + Dashed(l, first[1..] + rest)
  {
    var s := first + rest;
    assert s[0] == first[0] && s[1..] == first[1..] + rest && s[..1] == first[..1];
  }

  /** Colours of the palette, under their trimmed, lower-case, dashed name, get its swatch; nothing else gets one. */
  lemma SwatchMeaning(l: Locale, pair: Label)
    ensures
      var name, swatch := Dashed(l, l.lower(l.trim(pair.value))), RulesOf(l).swatch(pair);
      && (swatch.Some? <==> pair.code in {"color", "colour"} && name in l.palette)
      && (swatch.Some? ==> swatch.value == l.palette[name])
  {}

  /** One label's upsert: its attribute is found or made, its value made whole, or changed only where the label says so. */
  lemma UpsertMeaning(rules: Rules, t: Tables, pair: Label)
    requires Wired(t)
    ensures
      var u := Upserted(rules, t, pair);
      && u.links == t.links && pair.code in u.attributes && u.attributes == t.attributes[pair.code := u.attributes[pair.code]]
      && (forall code | code in t.attributes ::
            u.attributes[code] == t.attributes[code] && (u.attributes[pair.code] == t.attributes[code] ==> code == pair.code))
      && var key := ValueKey(u.attributes[pair.code], pair.value);
         && key in u.values && u.values == t.values[key := u.values[key]]
         && u.values[key].caption ==
              (if key !in t.values || rules.recaptions(pair) then rules.caption(pair) else t.values[key].caption)
         && u.values[key].swatch ==
              (if key !in t.values || rules.swatch(pair).Some? then rules.swatch(pair) else t.values[key].swatch)
         && (key in t.values ==> u.values[key].id == t.values[key].id)
  {}

  // ----- The repository --------------------------------------------------------------------------

  function Outcome(rules: Rules, t: Tables, cache: Option<map<string, nat>>, labels: seq<Label>)
    : (Tables, Option<map<string, nat>>, seq<nat>)
  {
    match cache
    case None =>
      var r := Plain(rules, t, labels);
      (r.0, None, r.1)
    case Some(entries) =>
      var r := Cached(rules, t, entries, labels);
      (r.0, Some(r.1), r.2)
  }

  /** An outcome with `ids` linked before it. */
  function After(r: (Tables, Option<map<string, nat>>, seq<nat>), ids: seq<nat>)
    : (Tables, Option<map<string, nat>>, seq<nat>)
  {
    (r.0, r.1, ids + r.2)
  }

  lemma AfterPush(r: (Tables, Option<map<string, nat>>, seq<nat>), ids: seq<nat>, id: nat)
    ensures After(After(r, [id]), ids) == After(r, ids + [id])
  {
    assert ids + ([id] + r.2) == ids + [id] + r.2;
  }

  lemma LabelsStep(l: Locale, attrs: seq<(string, string)>, i: nat)
    requires i < |attrs|
    ensures
      var pair := Label(l.lower(l.trim(attrs[i].0)), l.trim(attrs[i].1));
      var rest := Labels(l, attrs[i + 1..]);
      Labels(l, attrs[i..]) == if pair.code == "" || pair.value == "" then rest else [pair] + rest
  {
    assert attrs[i..][1..] == attrs[i + 1..];
  }

  class LabelCache {
    var entries: map<string, nat>

    constructor ()
      ensures entries == map[]
    {
      entries := map[];
    }
  }

  function EntriesOf(cache: LabelCache?): Option<map<string, nat>>
    reads cache
  {
    if cache == null then None else Some(cache.entries)
  }

  class AttributeRepository {
    var attributes: map<string, nat>
    var values: map<ValueKey, ValueRow>
    var links: map<VariantId, set<nat>>
    var nextId: nat

    constructor ()
      ensures State() == EMPTY
    {
      attributes, values, links, nextId := map[], map[], map[], 0;
    }

    function State(): Tables
      reads this
    {
      Tables(attributes, values, links, nextId)
    }

    method UpsertAttribute(code: string) returns (attribute: nat)
      modifies this
      ensures attribute == if code in old(attributes) then old(attributes)[code] else old(nextId)
      ensures attributes == old(attributes)[code := attribute] && values == old(values) && links == old(links)
      ensures nextId == if code in old(attributes) then old(nextId) else old(nextId) + 1
    {
      if code in attributes {
        attribute := attributes[code];
      } else {
        attribute, nextId := nextId, nextId + 1;
        attributes := attributes[code := attribute];
      }
    }

    method UpsertValue(l: Locale, attribute: nat, pair: Label) returns (id: nat)
      modifies this
      ensures attributes == old(attributes) && links == old(links)
      ensures
        var key := ValueKey(attribute, pair.value);
        values == old(values)[key := Row(RulesOf(l), old(values), key, old(nextId), pair)] && id == values[key].id
      ensures nextId == if ValueKey(attribute, pair.value) in old(values) then old(nextId) else old(nextId) + 1
    {
      var rules, key := RulesOf(l), ValueKey(attribute, pair.value);
      var swatch, caption := rules.swatch(pair), rules.caption(pair);
      if key in values {
        var row := values[key];
        if rules.recaptions(pair) { row := row.(caption := caption); }
        if swatch.Some? { row := row.(swatch := swatch); }
        values := values[key := row];
      } else {
        values, nextId := values[key := ValueRow(nextId, caption, swatch)], nextId + 1;
      }
      id := values[key].id;
    }

    method UpsertLabel(l: Locale, pair: Label) returns (id: nat)
      modifies this
      ensures State() == Upserted(RulesOf(l), old(State()), pair)
      ensures HasRow(State(), pair) && id == RowOf(State(), pair).id
    {
      var attribute := UpsertAttribute(pair.code);
      id := UpsertValue(l, attribute, pair);
    }

    method ReplaceLinks(variant: VariantId, valueIds: seq<nat>)
      modifies this
      ensures State() == Linked(old(State()), variant, valueIds)
    {
      links := links[variant := {}];
      if |valueIds| > 0 {
        links := links[variant := set id | id in valueIds];
      } else {
        assert Linked(old(State()), variant, valueIds).links[variant] == {};
      }
    }

    /** The value row of one label, from the cache where it is there. */
    method ValueId(l: Locale, pair: Label, cache: LabelCache?, ghost rest: seq<Label>) returns (id: nat)
      modifies this, cache
      ensures
        Outcome(RulesOf(l), old(State()), old(EntriesOf(cache)), [pair] + rest)
        == After(Outcome(RulesOf(l), State(), EntriesOf(cache), rest), [id])
    {
      if cache != null && CacheKey(pair) in cache.entries {
        id := cache.entries[CacheKey(pair)];
      } else {
        id := UpsertLabel(l, pair);
        if cache != null { cache.entries := cache.entries[CacheKey(pair) := id]; }
      }
    }

    method UpsertVariantAttributesFromLabels(
      l: Locale, variant: VariantId, attrs: seq<(string, string)>, cache: LabelCache?)
      modifies this, cache
      ensures
        var r := Outcome(RulesOf(l), old(State()), old(EntriesOf(cache)), Labels(l, attrs));
        State() == Linked(r.0, variant, r.2) && EntriesOf(cache) == r.1
    {
      var valueIds: seq<nat> := [];
      ghost var rules := RulesOf(l);
      ghost var whole := Outcome(rules, State(), EntriesOf(cache), Labels(l, attrs));
      assert attrs[0..] == attrs && valueIds + whole.2 == whole.2;
      for i := 0 to |attrs|
        invariant whole == After(Outcome(rules, State(), EntriesOf(cache), Labels(l, attrs[i..])), valueIds)
      {
        var pair := Label(l.lower(l.trim(attrs[i].0)), l.trim(attrs[i].1));
        ghost var rest := Labels(l, attrs[i + 1..]);
        LabelsStep(l, attrs, i);
        if pair.code != "" && pair.value != "" {
          var id := ValueId(l, pair, cache, rest);
          AfterPush(Outcome(rules, State(), EntriesOf(cache), rest), valueIds, id);
          valueIds := valueIds + [id];
        }
      }
      assert Labels(l, attrs[|attrs|..]) == [] && valueIds + [] == valueIds;
      ReplaceLinks(variant, valueIds);
    }
  }
}
