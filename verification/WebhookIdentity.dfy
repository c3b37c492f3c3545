/**
 The identity under which webhook deliveries are deduplicated: the provider's own event
 id, or else a hash of the payload printed with its keys sorted at every level. JSON text
 is that of RFC 8259; sorting is by UTF-16 code unit, as in section 3.2.3 of RFC 8785.
 */
module WebhookIdentity {
  import opened Options
  import opened Json

  const QUOTE: Unit := 0x22
  const COMMA: Unit := 0x2c
  const COLON: Unit := 0x3a
  const BACKSLASH: Unit := 0x5c
  const OPEN_BRACKET: Unit := 0x5b
  const CLOSE_BRACKET: Unit := 0x5d
  const OPEN_BRACE: Unit := 0x7b
  const CLOSE_BRACE: Unit := 0x7d
  const NULL_TEXT: Text := [0x6e, 0x75, 0x6c, 0x6c]
  const TRUE_TEXT: Text := [0x74, 0x72, 0x75, 0x65]
  const FALSE_TEXT: Text := [0x66, 0x61, 0x6c, 0x73, 0x65]

  // ----- Printing --------------------------------------------------------------------------

  predicate IsLead(c: Unit) { 0xd800 <= c <= 0xdbff }

  predicate IsTrail(c: Unit) { 0xdc00 <= c <= 0xdfff }

  function HexDigit(n: nat): Unit
    requires n < 16
  {
    if n < 10 then 0x30 + n else 0x57 + n
  }

  function HexEscape(c: Unit): Text {
    var q, r := c / 16, c / 16 / 16;
    [BACKSLASH, 0x75, HexDigit(r / 16), HexDigit(r % 16), HexDigit(q % 16), HexDigit(c % 16)]
  }

  /** One code unit of a string literal: escaped where it must be, or where it is half a pair. */
  function EscapeUnit(c: Unit): Text {
    if c == 0x08 then [BACKSLASH, 0x62]
    else if c == 0x09 then [BACKSLASH, 0x74]
    else if c == 0x0a then [BACKSLASH, 0x6e]
    else if c == 0x0c then [BACKSLASH, 0x66]
    else if c == 0x0d then [BACKSLASH, 0x72]
    else if c == QUOTE || c == BACKSLASH then [BACKSLASH, c]
    else if c < 0x20 || IsLead(c) || IsTrail(c) then HexEscape(c)
    else [c]
  }

  function Escape(s: Text): Text {
    if s == [] then []
    else if |s| >= 2 && IsLead(s[0]) && IsTrail(s[1]) then [s[0], s[1]] + Escape(s[2..])
    else EscapeUnit(s[0]) + Escape(s[1..])
  }

  /** `JSON.stringify` of a string. */
  function Quote(s: Text): Text {
    [QUOTE] + Escape(s) + [QUOTE]
  }

  /** `parts.join(',')` */
  function Join(parts: seq<Text>): Text {
    if parts == [] then []
    else if |parts| == 1 then parts[0]
    else parts[0] + [COMMA] + Join(parts[1..])
  }

  function Canonicalise(v: Value): Text {
    match v
    case Undefined => NULL_TEXT
    case Null => NULL_TEXT
    case NotFinite => NULL_TEXT
    case Bool(b) => if b then TRUE_TEXT else FALSE_TEXT
    case Number(text) => text
    case String(s) => Quote(s)
    case Array(items) =>
      [OPEN_BRACKET] + Join(seq(|items|, i requires 0 <= i < |items| => Canonicalise(items[i]))) + [CLOSE_BRACKET]
    case Object(members) =>
      var entries := Sorted(Defined(members));
      assert forall i | 0 <= i < |entries| :: entries[i] in members;
      [OPEN_BRACE]
      + Join(seq(|entries|, i requires 0 <= i < |entries| =>
               Quote(entries[i].key) + [COLON] + Canonicalise(entries[i].value)))
      + [CLOSE_BRACE]
  }

  /** What the printed text says: keys sorted, undefined members gone, non-values null. */
  function Normal(v: Value): Value {
    match v
    case Undefined => Null
    case NotFinite => Null
    case Array(items) => Array(seq(|items|, i requires 0 <= i < |items| => Normal(items[i])))
    case Object(members) =>
      var entries := Sorted(Defined(members));
      assert forall i | 0 <= i < |entries| :: entries[i] in members;
      Object(seq(|entries|, i requires 0 <= i < |entries| => Member(entries[i].key, Normal(entries[i].value))))
    case _ => v
  }

  // ----- Parsing ---------------------------------------------------------------------------

  datatype Parse<+T> = Fail | Ok(value: T, rest: Text)

  function HexValue(c: Unit): (n: int)
    ensures -1 <= n < 16
  {
    if 0x30 <= c <= 0x39 then c - 0x30 else if 0x61 <= c <= 0x66 then c - 0x57 else -1
  }

  function ParseHex(t: Text): Parse<Unit> {
    if |t| < 4 then Fail
    else
      var a, b, c, d := HexValue(t[0]), HexValue(t[1]), HexValue(t[2]), HexValue(t[3]);
      if a < 0 || b < 0 || c < 0 || d < 0 then Fail
      else Ok(a * 0x1000 + b * 0x100 + c * 0x10 + d, t[4..])
  }

  /** One possibly escaped code unit. */
  function ParseUnit(t: Text): (p: Parse<Unit>)
    ensures p.Ok? ==> |p.rest| < |t|
  {
    if t == [] || t[0] == QUOTE || t[0] < 0x20 then Fail
    else if t[0] != BACKSLASH then Ok(t[0], t[1..])
    else if |t| == 1 then Fail
    else
      var c := t[1];
      if c == 0x62 then Ok(0x08, t[2..])
      else if c == 0x74 then Ok(0x09, t[2..])
      else if c == 0x6e then Ok(0x0a, t[2..])
      else if c == 0x66 then Ok(0x0c, t[2..])
      else if c == 0x72 then Ok(0x0d, t[2..])
      else if c == QUOTE || c == BACKSLASH then Ok(c, t[2..])
      else if c == 0x75 then ParseHex(t[2..])
      else Fail
  }

  /** A string literal after its opening quote. */
  function ParseString(t: Text): (p: Parse<Text>)
    ensures p.Ok? ==> |p.rest| < |t|
  {
    if t != [] && t[0] == QUOTE then Ok([], t[1..])
    else
      match ParseUnit(t)
      case Fail => Fail
      case Ok(c, rest) =>
        match ParseString(rest)
        case Fail => Fail
        case Ok(s, after) => Ok([c] + s, after)
  }

  function NumberLength(t: Text): (n: nat)
    ensures n <= |t| && (forall i | 0 <= i < n :: IsNumberUnit(t[i])) && (n < |t| ==> !IsNumberUnit(t[n]))
  {
    if t != [] && IsNumberUnit(t[0]) then NumberLength(t[1..]) + 1 else 0
  }

  function ParseValue(t: Text): (p: Parse<Value>)
    ensures p.Ok? ==> |p.rest| < |t|
    decreases |t|, 0
  {
    if t == [] then Fail
    else if t[0] == QUOTE then
      match ParseString(t[1..])
      case Fail => Fail
      case Ok(s, rest) => Ok(String(s), rest)
    else if t[0] == OPEN_BRACKET then
      if |t| >= 2 && t[1] == CLOSE_BRACKET then Ok(Array([]), t[2..])
      else
        match ParseItems(t[1..])
        case Fail => Fail
        case Ok(items, rest) => Ok(Array(items), rest)
    else if t[0] == OPEN_BRACE then
      if |t| >= 2 && t[1] == CLOSE_BRACE then Ok(Object([]), t[2..])
      else
        match ParseMembers(t[1..])
        case Fail => Fail
        case Ok(members, rest) => Ok(Object(members), rest)
    else if NULL_TEXT <= t then Ok(Null, t[4..])
    else if TRUE_TEXT <= t then Ok(Bool(true), t[4..])
    else if FALSE_TEXT <= t then Ok(Bool(false), t[5..])
    else if IsNumberUnit(t[0]) then Ok(Number(t[..NumberLength(t)]), t[NumberLength(t)..])
    else Fail
  }

  /** The items of an array that has some, up to its closing bracket. */
  function ParseItems(t: Text): (p: Parse<seq<Value>>)
    ensures p.Ok? ==> |p.rest| < |t|
    decreases |t|, 1
  {
    match ParseValue(t)
    case Fail => Fail
    case Ok(item, rest) =>
      if rest == [] then Fail
      else if rest[0] == CLOSE_BRACKET then Ok([item], rest[1..])
      else if rest[0] != COMMA then Fail
      else
        match ParseItems(rest[1..])
        case Fail => Fail
        case Ok(items, after) => Ok([item] + items, after)
  }

  function ParseMember(t: Text): (p: Parse<Member>)
    ensures p.Ok? ==> |p.rest| < |t|
    decreases |t|, 1
  {
    if t == [] || t[0] != QUOTE then Fail
    else
      match ParseString(t[1..])
      case Fail => Fail
      case Ok(key, colon) =>
        if colon == [] || colon[0] != COLON then Fail
        else
          match ParseValue(colon[1..])
          case Fail => Fail
          case Ok(value, rest) => Ok(Member(key, value), rest)
  }

  function ParseMembers(t: Text): (p: Parse<seq<Member>>)
    ensures p.Ok? ==> |p.rest| < |t|
    decreases |t|, 2
  {
    match ParseMember(t)
    case Fail => Fail
    case Ok(member, rest) =>
      if rest == [] then Fail
      else if rest[0] == CLOSE_BRACE then Ok([member], rest[1..])
      else if rest[0] != COMMA then Fail
      else
        match ParseMembers(rest[1..])
        case Fail => Fail
        case Ok(members, after) => Ok([member] + members, after)
  }

  // ----- Round trip ------------------------------------------------------------------------

  lemma PairStep(a: Unit, b: Unit, tail: Text, s: Text, after: Text)
    requires IsLead(a) && IsTrail(b) && ParseString(tail) == Ok(s, after)
    ensures ParseString([a, b] + tail) == Ok([a, b] + s, after)
  {
    assert ([b] + tail)[1..] == tail;
    assert ([a] + ([b] + tail))[1..] == [b] + tail;
    assert [a] + ([b] + tail) == [a, b] + tail;
    assert [a] + ([b] + s) == [a, b] + s;
  }

  lemma UnitStep(c: Unit, tail: Text, s: Text, after: Text)
    requires ParseString(tail) == Ok(s, after)
    ensures ParseString(EscapeUnit(c) + tail) == Ok([c] + s, after)
  {}

  lemma Append3(a: Text, b: Text, c: Text)
    ensures a + b + c == a + (b + c)
  {}

  lemma {:induction false} StringRoundTrip(s: Text, rest: Text)
    ensures ParseString(Escape(s) + ([QUOTE] + rest)) == Ok(s, rest)
  {
    var end := [QUOTE] + rest;
    if s == [] {
      assert Escape(s) + end == end;
    } else if |s| >= 2 && IsLead(s[0]) && IsTrail(s[1]) {
      StringRoundTrip(s[2..], rest);
      PairStep(s[0], s[1], Escape(s[2..]) + end, s[2..], rest);
      Append3([s[0], s[1]], Escape(s[2..]), end);
      assert [s[0], s[1]] + s[2..] == s;
    } else {
      StringRoundTrip(s[1..], rest);
      UnitStep(s[0], Escape(s[1..]) + end, s[1..], rest);
      Append3(EscapeUnit(s[0]), Escape(s[1..]), end);
      assert Escape(s) == EscapeUnit(s[0]) + Escape(s[1..]);
      assert [s[0]] + s[1..] == s;
    }
  }

  /** What may follow a printed value without being read as part of it. */
  predicate Ends(rest: Text) {
    rest == [] || !IsNumberUnit(rest[0])
  }

  lemma {:induction false} NumberRoundTrip(t: NumberText, rest: Text)
    requires Ends(rest)
    ensures ParseValue(t + rest) == Ok(Number(t), rest)
  {
    NumberSpan(t, rest);
    assert (t + rest)[..|t|] == t && (t + rest)[|t|..] == rest;
    assert IsNumberUnit((t + rest)[0]);
  }

  lemma {:induction false} NumberSpan(t: Text, rest: Text)
    requires Ends(rest) && forall c | c in t :: IsNumberUnit(c)
    ensures NumberLength(t + rest) == |t|
  {
    if t != [] {
      NumberSpan(t[1..], rest);
      assert (t + rest)[1..] == t[1..] + rest;
    } else {
      assert t + rest == rest;
    }
  }

  lemma MemberStep(t: Text, u: Text, key: Text, value: Value, rest: Text)
    requires ParseString(t) == Ok(key, [COLON] + u) && ParseValue(u) == Ok(value, rest)
    ensures ParseMember([QUOTE] + t) == Ok(Member(key, value), rest)
  {
    assert ([QUOTE] + t)[1..] == t && ([COLON] + u)[1..] == u;
  }

  lemma ArrayStep(u: Text, items: seq<Value>, rest: Text)
    requires ParseItems(u) == Ok(items, rest)
    ensures ParseValue([OPEN_BRACKET] + u) == Ok(Array(items), rest)
  {
    assert ([OPEN_BRACKET] + u)[1..] == u;
    assert ParseValue(u).Ok?;
  }

  lemma ObjectStep(u: Text, ms: seq<Member>, rest: Text)
    requires ParseMembers(u) == Ok(ms, rest)
    ensures ParseValue([OPEN_BRACE] + u) == Ok(Object(ms), rest)
  {
    assert ([OPEN_BRACE] + u)[1..] == u;
    assert ParseMember(u).Ok?;
  }

  /** `Join(parts) + end`, one part at a time. */
  function Closed(parts: seq<Text>, end: Text): Text
    requires parts != []
  {
    parts[0] + if |parts| == 1 then end else [COMMA] + Closed(parts[1..], end)
  }

  lemma {:induction false} JoinThenEnd(parts: seq<Text>, end: Text)
    requires parts != []
    ensures Join(parts) + end == Closed(parts, end)
  {
    if |parts| > 1 {
      JoinThenEnd(parts[1..], end);
      assert parts[0] + [COMMA] + Join(parts[1..]) + end == parts[0] + ([COMMA] + (Join(parts[1..]) + end));
    }
  }

  function NormalItems(items: seq<Value>): seq<Value> {
    seq(|items|, i requires 0 <= i < |items| => Normal(items[i]))
  }

  /** `Normal` of each member's value, the members staying where they are. */
  function NormalAll(ms: seq<Member>): seq<Member> {
    seq(|ms|, i requires 0 <= i < |ms| => Member(ms[i].key, Normal(ms[i].value)))
  }

  /** The items of an array, printed, closed and read back. */
  lemma {:induction false} ItemsRoundTrip(v: Value, items: seq<Value>, parts: seq<Text>, rest: Text)
    requires forall item | item in items :: item < v
    requires |parts| == |items| > 0 && forall k | 0 <= k < |parts| :: parts[k] == Canonicalise(items[k])
    ensures ParseItems(Closed(parts, [CLOSE_BRACKET] + rest)) == Ok(NormalItems(items), rest)
    decreases v, 0, |items|
  {
    var end, t := [CLOSE_BRACKET] + rest, Closed(parts, [CLOSE_BRACKET] + rest);
    assert items[0] in items;
    if |parts| == 1 {
      RoundTrip(items[0], end);
      assert NormalItems(items) == [Normal(items[0])];
    } else {
      var more := Closed(parts[1..], end);
      assert t == Canonicalise(items[0]) + ([COMMA] + more);
      RoundTrip(items[0], [COMMA] + more);
      assert forall item | item in items[1..] :: item in items;
      ItemsRoundTrip(v, items[1..], parts[1..], rest);
      NormalItemsCons(items);
    }
  }

  lemma NormalItemsCons(items: seq<Value>)
    requires items != []
    ensures NormalItems(items) == [Normal(items[0])] + NormalItems(items[1..])
  {}

  lemma MemberText(key: Text, value: Text, rest: Text)
    ensures [QUOTE] + key + [QUOTE] + [COLON] + value + rest ==
            [QUOTE] + (key + ([QUOTE] + ([COLON] + (value + rest))))
  {}

  lemma {:induction false} MemberRoundTrip(m: Member, rest: Text)
    requires Ends(rest)
    ensures ParseMember(Quote(m.key) + [COLON] + Canonicalise(m.value) + rest) ==
            Ok(Member(m.key, Normal(m.value)), rest)
    decreases m.value, 2, 0
  {
    var u := Canonicalise(m.value) + rest;
    StringRoundTrip(m.key, [COLON] + u);
    RoundTrip(m.value, rest);
    MemberStep(Escape(m.key) + ([QUOTE] + ([COLON] + u)), u, m.key, Normal(m.value), rest);
    MemberText(Escape(m.key), Canonicalise(m.value), rest);
  }

  /** The members of an object, printed, closed and read back. */
  lemma {:induction false} MembersRoundTrip(v: Value, entries: seq<Member>, parts: seq<Text>, rest: Text)
    requires forall m | m in entries :: m.value < v
    requires |parts| == |entries| > 0
    requires forall k | 0 <= k < |parts| ::
               parts[k] == Quote(entries[k].key) + [COLON] + Canonicalise(entries[k].value)
    ensures ParseMembers(Closed(parts, [CLOSE_BRACE] + rest)) == Ok(NormalAll(entries), rest)
    decreases v, 0, |entries|
  {
    var end, t := [CLOSE_BRACE] + rest, Closed(parts, [CLOSE_BRACE] + rest);
    var m := Member(entries[0].key, Normal(entries[0].value));
    assert entries[0] in entries;
    if |parts| == 1 {
      MemberRoundTrip(entries[0], end);
      assert NormalAll(entries) == [m];
    } else {
      var more := Closed(parts[1..], end);
      assert t == parts[0] + ([COMMA] + more);
      MemberRoundTrip(entries[0], [COMMA] + more);
      assert forall m | m in entries[1..] :: m in entries;
      MembersRoundTrip(v, entries[1..], parts[1..], rest);
      NormalAllCons(entries);
    }
  }

  lemma NormalAllCons(ms: seq<Member>)
    requires ms != []
    ensures NormalAll(ms) == [Member(ms[0].key, Normal(ms[0].value))] + NormalAll(ms[1..])
  {}

  lemma QuoteRoundTrip(s: Text, rest: Text)
    ensures ParseValue(Quote(s) + rest) == Ok(String(s), rest)
  {
    StringRoundTrip(s, rest);
    var u := Escape(s) + ([QUOTE] + rest);
    assert Quote(s) + rest == [QUOTE] + u && ([QUOTE] + u)[1..] == u;
  }

  lemma WordsRoundTrip(rest: Text)
    ensures ParseValue(NULL_TEXT + rest) == Ok(Null, rest)
    ensures ParseValue(TRUE_TEXT + rest) == Ok(Bool(true), rest)
    ensures ParseValue(FALSE_TEXT + rest) == Ok(Bool(false), rest)
  {}

  /** Reading back what was printed gives the value with its keys sorted at every level. */
  lemma {:induction false} RoundTrip(v: Value, rest: Text)
    requires Ends(rest)
    ensures ParseValue(Canonicalise(v) + rest) == Ok(Normal(v), rest)
    decreases v, 1, 0
  {
    match v
    case Number(text) => NumberRoundTrip(text, rest);
    case String(s) => QuoteRoundTrip(s, rest);
    case Array(items) => ArrayRoundTrip(v, rest);
    case Object(members) => ObjectRoundTrip(v, rest);
    case _ => WordsRoundTrip(rest);
  }

  lemma EmptyRoundTrips(rest: Text)
    ensures ParseValue([OPEN_BRACKET] + ([CLOSE_BRACKET] + rest)) == Ok(Array([]), rest)
    ensures ParseValue([OPEN_BRACE] + ([CLOSE_BRACE] + rest)) == Ok(Object([]), rest)
  {
    assert ([OPEN_BRACKET] + ([CLOSE_BRACKET] + rest))[2..] == rest;
    assert ([OPEN_BRACE] + ([CLOSE_BRACE] + rest))[2..] == rest;
  }

  lemma Bracketed(open: Unit, inside: Text, close: Unit, rest: Text)
    ensures [open] + inside + [close] + rest == [open] + (inside + ([close] + rest))
  {}

  lemma ArrayText(v: Value) returns (parts: seq<Text>)
    requires v.Array?
    ensures Normal(v) == Array(NormalItems(v.items))
    ensures |parts| == |v.items| && Canonicalise(v) == [OPEN_BRACKET] + Join(parts) + [CLOSE_BRACKET]
    ensures forall k | 0 <= k < |parts| :: parts[k] == Canonicalise(v.items[k])
  {
    parts := seq(|v.items|, i requires 0 <= i < |v.items| => Canonicalise(v.items[i]));
  }

  lemma {:induction false} ArrayRoundTrip(v: Value, rest: Text)
    requires v.Array?
    ensures ParseValue(Canonicalise(v) + rest) == Ok(Normal(v), rest)
    decreases v, 0, |v.items| + 1
  {
    var parts := ArrayText(v);
    Bracketed(OPEN_BRACKET, Join(parts), CLOSE_BRACKET, rest);
    var end := [CLOSE_BRACKET] + rest;
    if parts == [] {
      EmptyRoundTrips(rest);
      assert Join(parts) + end == end;
      assert Canonicalise(v) + rest == [OPEN_BRACKET] + end && Normal(v) == Array([]);
    } else {
      JoinThenEnd(parts, end);
      ItemsRoundTrip(v, v.items, parts, rest);
      ArrayStep(Closed(parts, end), NormalItems(v.items), rest);
    }
  }

  lemma ObjectText(v: Value) returns (entries: seq<Member>, parts: seq<Text>)
    requires v.Object?
    ensures entries == Sorted(Defined(v.members)) && forall m | m in entries :: m.value < v
    ensures Normal(v) == Object(NormalAll(entries))
    ensures |parts| == |entries| && Canonicalise(v) == [OPEN_BRACE] + Join(parts) + [CLOSE_BRACE]
    ensures forall k | 0 <= k < |parts| ::
              parts[k] == Quote(entries[k].key) + [COLON] + Canonicalise(entries[k].value)
  {
    entries := Sorted(Defined(v.members));
    assert forall i | 0 <= i < |entries| :: entries[i] in v.members;
    parts := seq(|entries|, i requires 0 <= i < |entries| =>
                   Quote(entries[i].key) + [COLON] + Canonicalise(entries[i].value));
    forall m | m in entries ensures m.value < v {
      assert m in v.members;
    }
  }

  lemma {:induction false} ObjectRoundTrip(v: Value, rest: Text)
    requires v.Object?
    ensures ParseValue(Canonicalise(v) + rest) == Ok(Normal(v), rest)
    decreases v, 0, |Sorted(Defined(v.members))| + 1
  {
    var entries, parts := ObjectText(v);
    Bracketed(OPEN_BRACE, Join(parts), CLOSE_BRACE, rest);
    var end := [CLOSE_BRACE] + rest;
    if parts == [] {
      EmptyRoundTrips(rest);
      assert Join(parts) + end == end;
      assert Canonicalise(v) + rest == [OPEN_BRACE] + end && Normal(v) == Object([]);
    } else {
      JoinThenEnd(parts, end);
      MembersRoundTrip(v, entries, parts, rest);
      ObjectStep(Closed(parts, end), NormalAll(entries), rest);
    }
  }

  // ----- Which values print the same -------------------------------------------------------

  predicate IsNull(v: Value) {
    v.Undefined? || v.Null? || v.NotFinite?
  }

  /**
   Equal as JSON, whatever order the keys of their objects stand in. Values JSON has no
   word for count as null, and members holding `undefined` as absent.
   */
  ghost predicate Same(a: Value, b: Value) {
    match a
    case Bool(_) => a == b
    case Number(_) => a == b
    case String(_) => a == b
    case Array(items) =>
      b.Array? && |items| == |b.items| && forall i | 0 <= i < |items| :: Same(items[i], b.items[i])
    case Object(members) =>
      b.Object? && Keys(Defined(members)) == Keys(Defined(b.members)) &&
      forall x, y | x in members && y in b.members && x.key == y.key && !x.value.Undefined? && !y.value.Undefined? ::
        Same(x.value, y.value)
    case _ => IsNull(b)
  }

  lemma SortedKeys(ms: seq<Member>)
    requires DistinctKeys(ms)
    ensures InOrder(Sorted(Defined(ms))) && Keys(Sorted(Defined(ms))) == Keys(Defined(ms))
  {
    DefinedKeepsDistinct(ms);
    SortedIsInOrder(Defined(ms));
  }

  lemma {:induction false} SameObjectsPrintSame(a: Value, b: Value)
    requires a.Object? && WellFormed(a) && WellFormed(b) && Same(a, b)
    ensures Canonicalise(a) == Canonicalise(b)
    decreases a, 0
  {
    var xs, ps := ObjectText(a);
    var ys, qs := ObjectText(b);
    SortedKeys(a.members);
    SortedKeys(b.members);
    OrderIsUnique(xs, ys);
    forall i | 0 <= i < |xs| ensures ps[i] == qs[i] {
      assert xs[i] in xs && ys[i] in ys;
      SamePrintsSame(xs[i].value, ys[i].value);
    }
    assert ps == qs;
  }

  lemma {:induction false} SamePrintsSame(a: Value, b: Value)
    requires WellFormed(a) && WellFormed(b) && Same(a, b)
    ensures Canonicalise(a) == Canonicalise(b)
    decreases a, 1
  {
    match a
    case Array(items) =>
      forall i | 0 <= i < |items| ensures Canonicalise(items[i]) == Canonicalise(b.items[i]) {
        assert items[i] in items && b.items[i] in b.items;
        SamePrintsSame(items[i], b.items[i]);
      }
      assert seq(|items|, i requires 0 <= i < |items| => Canonicalise(items[i]))
          == seq(|b.items|, i requires 0 <= i < |b.items| => Canonicalise(b.items[i]));
    case Object(_) => SameObjectsPrintSame(a, b);
    case _ =>
  }

  lemma SameKeys(xs: seq<Member>, ys: seq<Member>)
    requires |xs| == |ys| && forall i | 0 <= i < |xs| :: xs[i].key == ys[i].key
    ensures Keys(xs) == Keys(ys)
  {
    forall k | k in Keys(xs) ensures k in Keys(ys) {
      var i :| 0 <= i < |xs| && xs[i].key == k;
      assert ys[i] in ys;
    }
    forall k | k in Keys(ys) ensures k in Keys(xs) {
      var i :| 0 <= i < |ys| && ys[i].key == k;
      assert xs[i] in xs;
    }
  }

  /** Lists in order that are the same once normalised pair their members up by key. */
  lemma NormalPairs(xs: seq<Member>, ys: seq<Member>)
    requires InOrder(xs) && InOrder(ys) && NormalAll(xs) == NormalAll(ys)
    ensures Keys(xs) == Keys(ys)
    ensures forall x, y | x in xs && y in ys && x.key == y.key :: Normal(x.value) == Normal(y.value)
  {
    assert |NormalAll(xs)| == |NormalAll(ys)|;
    forall i | 0 <= i < |xs| ensures xs[i].key == ys[i].key && Normal(xs[i].value) == Normal(ys[i].value) {
      assert NormalAll(xs)[i] == NormalAll(ys)[i];
    }
    SameKeys(xs, ys);
    forall x, y | x in xs && y in ys && x.key == y.key ensures Normal(x.value) == Normal(y.value) {
      var i :| 0 <= i < |xs| && xs[i] == x;
      var j :| 0 <= j < |ys| && ys[j] == y;
      LessIsTotal(x.key, x.key);
      assert i == j;
    }
  }

  lemma {:induction false} NormalObjectsSame(a: Value, b: Value)
    requires a.Object? && WellFormed(a) && WellFormed(b) && Normal(a) == Normal(b)
    ensures Same(a, b)
    decreases a, 0
  {
    assert b.Object?;
    var xs, _ := ObjectText(a);
    var ys, _ := ObjectText(b);
    SortedKeys(a.members);
    SortedKeys(b.members);
    NormalPairs(xs, ys);
    forall x, y | x in a.members && y in b.members && x.key == y.key && !x.value.Undefined? && !y.value.Undefined?
      ensures Same(x.value, y.value)
    {
      assert x in xs && y in ys;
      NormalSame(x.value, y.value);
    }
  }

  lemma {:induction false} NormalSame(a: Value, b: Value)
    requires WellFormed(a) && WellFormed(b) && Normal(a) == Normal(b)
    ensures Same(a, b)
    decreases a, 1
  {
    match a
    case Array(items) =>
      forall i | 0 <= i < |items| ensures Same(items[i], b.items[i]) {
        assert items[i] in items && b.items[i] in b.items;
        assert Normal(a).items[i] == Normal(b).items[i];
        NormalSame(items[i], b.items[i]);
      }
    case Object(_) => NormalObjectsSame(a, b);
    case _ =>
  }

  /** Two payloads print the same exactly when they differ in nothing but the order of keys. */
  lemma PrintsSameIff(a: Value, b: Value)
    requires WellFormed(a) && WellFormed(b)
    ensures Canonicalise(a) == Canonicalise(b) <==> Same(a, b)
  {
    if Same(a, b) {
      SamePrintsSame(a, b);
    }
    if Canonicalise(a) == Canonicalise(b) {
      RoundTrip(a, []);
      RoundTrip(b, []);
      NormalSame(a, b);
    }
  }

  // ----- The event id ----------------------------------------------------------------------

  const DATA: Text := [0x64, 0x61, 0x74, 0x61]
  const ID: Text := [0x69, 0x64]
  const EVENT_SNAKE_ID: Text := [0x65, 0x76, 0x65, 0x6e, 0x74, 0x5f, 0x69, 0x64]
  const EVENT_CAMEL_ID: Text := [0x65, 0x76, 0x65, 0x6e, 0x74, 0x49, 0x64]
  const OBJECT: Text := [0x6f, 0x62, 0x6a, 0x65, 0x63, 0x74]

  const IDENTITY_PATHS: seq<seq<Text>> := [[DATA, ID], [ID], [EVENT_SNAKE_ID], [EVENT_CAMEL_ID], [DATA, OBJECT, ID]]

  /** `sha256:` */
  const HASH_PREFIX: Text := [0x73, 0x68, 0x61, 0x32, 0x35, 0x36, 0x3a]

  function MemberNamed(ms: seq<Member>, key: Text): Value {
    if ms == [] then Undefined else if ms[0].key == key then ms[0].value else MemberNamed(ms[1..], key)
  }

  /** `v[key]` for the keys of the identity paths, none of which an array or a prototype has. */
  function Property(v: Value, key: Text): Value {
    if v.Object? then MemberNamed(v.members, key) else Undefined
  }

  function Follow(v: Value, path: seq<Text>): Option<Text>
    decreases path
  {
    if path == [] then if v.String? && v.s != [] then Some(v.s) else None
    else if v.Object? || v.Array? then Follow(Property(v, path[0]), path[1..])
    else None
  }

  function FirstFound(v: Value, paths: seq<seq<Text>>): Option<Text> {
    if paths == [] then None
    else if Follow(v, paths[0]).Some? then Follow(v, paths[0]) else FirstFound(v, paths[1..])
  }

  function EventId(v: Value, sha256: Text -> Text): Text {
    match FirstFound(v, IDENTITY_PATHS)
    case Some(id) => id
    case None => HASH_PREFIX + sha256(Canonicalise(v))
  }

  method ReadPath(payload: Value, path: seq<Text>) returns (found: Option<Text>)
    ensures found == Follow(payload, path)
  {
    var cursor := payload;
    var i := 0;
    while i < |path|
      invariant 0 <= i <= |path|
      invariant Follow(payload, path) == Follow(cursor, path[i..])
    {
      if !cursor.Object? && !cursor.Array? {
        return None;
      }
      cursor := Property(cursor, path[i]);
      i := i + 1;
    }
    found := if cursor.String? && cursor.s != [] then Some(cursor.s) else None;
  }

  method DeriveWebhookEventId(payload: Value, sha256: Text -> Text) returns (id: Text)
    ensures id == EventId(payload, sha256)
  {
    var i := 0;
    while i < |IDENTITY_PATHS|
      invariant 0 <= i <= |IDENTITY_PATHS|
      invariant FirstFound(payload, IDENTITY_PATHS) == FirstFound(payload, IDENTITY_PATHS[i..])
    {
      var found := ReadPath(payload, IDENTITY_PATHS[i]);
      if found.Some? {
        return found.value;
      }
      i := i + 1;
    }
    id := HASH_PREFIX + sha256(Canonicalise(payload));
  }

  lemma {:induction false} NamedMember(ms: seq<Member>, key: Text)
    requires DistinctKeys(ms)
    ensures forall m | m in ms && m.key == key :: MemberNamed(ms, key) == m.value
    ensures key in Keys(Defined(ms)) ==> Member(key, MemberNamed(ms, key)) in ms && MemberNamed(ms, key) != Undefined
    ensures key !in Keys(Defined(ms)) ==> MemberNamed(ms, key) == Undefined
  {
    if ms != [] {
      NamedMember(ms[1..], key);
      assert ms[0].value != Undefined ==> ms[0] in Defined(ms);
      assert ms[0] == Member(ms[0].key, ms[0].value);
      assert forall m | m in Defined(ms[1..]) :: m in Defined(ms) && m.key != ms[0].key;
    }
  }

  lemma SameProperty(a: Value, b: Value, key: Text)
    requires WellFormed(a) && WellFormed(b) && Same(a, b)
    ensures Same(Property(a, key), Property(b, key))
    ensures WellFormed(Property(a, key)) && WellFormed(Property(b, key))
  {
    if a.Object? {
      NamedMember(a.members, key);
      NamedMember(b.members, key);
    }
  }

  lemma {:induction false} SameFollow(a: Value, b: Value, path: seq<Text>)
    requires WellFormed(a) && WellFormed(b) && Same(a, b)
    ensures Follow(a, path) == Follow(b, path)
    decreases path
  {
    if path != [] {
      SameProperty(a, b, path[0]);
      SameFollow(Property(a, path[0]), Property(b, path[0]), path[1..]);
    }
  }

  lemma {:induction false} SameFound(a: Value, b: Value, paths: seq<seq<Text>>)
    requires WellFormed(a) && WellFormed(b) && Same(a, b)
    ensures FirstFound(a, paths) == FirstFound(b, paths)
  {
    if paths != [] {
      SameFollow(a, b, paths[0]);
      SameFound(a, b, paths[1..]);
    }
  }

  /** Redeliveries whose keys were reordered, at any depth, get the same id under any hash. */
  lemma SameEventId(a: Value, b: Value, sha256: Text -> Text)
    requires WellFormed(a) && WellFormed(b) && Same(a, b)
    ensures EventId(a, sha256) == EventId(b, sha256)
  {
    SameFound(a, b, IDENTITY_PATHS);
    PrintsSameIff(a, b);
  }

  /**
   Payloads without a provider id share an id exactly when they are the same up to key
   order, unless the hash itself collides on them.
   */
  lemma HashedEventIdIff(a: Value, b: Value, sha256: Text -> Text)
    requires WellFormed(a) && WellFormed(b)
    requires FirstFound(a, IDENTITY_PATHS) == None && FirstFound(b, IDENTITY_PATHS) == None
    ensures EventId(a, sha256) == EventId(b, sha256) <==>
            Same(a, b) || (Canonicalise(a) != Canonicalise(b) && sha256(Canonicalise(a)) == sha256(Canonicalise(b)))
  {
    PrintsSameIff(a, b);
    var x, y := sha256(Canonicalise(a)), sha256(Canonicalise(b));
    assert (HASH_PREFIX + x)[|HASH_PREFIX|..] == x && (HASH_PREFIX + y)[|HASH_PREFIX|..] == y;
  }

  /** The id is the one that a payload without a provider id gets. */
  predicate NamesHashOf(id: Text, v: Value, sha256: Text -> Text) {
    HASH_PREFIX <= id && id[|HASH_PREFIX|..] == sha256(Canonicalise(v))
  }

  lemma NamesHashIff(id: Text, v: Value, sha256: Text -> Text)
    ensures id == HASH_PREFIX + sha256(Canonicalise(v)) <==> NamesHashOf(id, v, sha256)
  {
    assert HASH_PREFIX <= id ==> id == HASH_PREFIX + id[|HASH_PREFIX|..];
    assert (HASH_PREFIX + sha256(Canonicalise(v)))[|HASH_PREFIX|..] == sha256(Canonicalise(v));
  }

  /**
   Any two payloads share an id exactly when both carry the same provider id, or one carries a provider
   id that spells out the other's hash, or neither carries one and they are the same up to key order or
   collide under the hash.
   */
  lemma SharedEventIdIff(a: Value, b: Value, sha256: Text -> Text)
    requires WellFormed(a) && WellFormed(b)
    ensures EventId(a, sha256) == EventId(b, sha256) <==>
      var x, y := FirstFound(a, IDENTITY_PATHS), FirstFound(b, IDENTITY_PATHS);
      if x.Some? && y.Some? then x == y
      else if x.Some? then NamesHashOf(x.value, b, sha256)
      else if y.Some? then NamesHashOf(y.value, a, sha256)
      else Same(a, b) || (Canonicalise(a) != Canonicalise(b) && sha256(Canonicalise(a)) == sha256(Canonicalise(b)))
  {
    var x, y := FirstFound(a, IDENTITY_PATHS), FirstFound(b, IDENTITY_PATHS);
    if x.Some? {
      NamesHashIff(x.value, b, sha256);
    } else if y.Some? {
      NamesHashIff(y.value, a, sha256);
    } else {
      HashedEventIdIff(a, b, sha256);
    }
  }

  /** Under any hash, every payload without a provider id has another payload that takes its id. */
  lemma HashCanBeSpelt(v: Value, sha256: Text -> Text) returns (other: Value)
    requires WellFormed(v) && FirstFound(v, IDENTITY_PATHS) == None
    ensures WellFormed(other) && !Same(other, v) && EventId(other, sha256) == EventId(v, sha256)
  {
    var id := String(EventId(v, sha256));
    other := Object([Member(ID, id)]);
    assert MemberNamed(other.members, ID) == id && MemberNamed(other.members, DATA) == Undefined;
    assert Follow(id, []) == Some(id.s) && Follow(other, [ID]) == Follow(Property(other, ID), [ID][1..]);
    assert Follow(other, [DATA, ID]) == Follow(Undefined, [DATA, ID][1..]) == None;
    assert IDENTITY_PATHS[0] == [DATA, ID] && IDENTITY_PATHS[1..][0] == [ID];
    assert FirstFound(other, IDENTITY_PATHS) == FirstFound(other, IDENTITY_PATHS[1..]) == Some(id.s);
    if Same(other, v) { SameFound(other, v, IDENTITY_PATHS); }
  }

  // ----- The id and the print, told from JSON's own characters ------------------------------------------

  function CharUnit(c: char): Unit { c as int % 0x1_0000 }

  function Chars(s: string): Text {
    seq(|s|, i requires 0 <= i < |s| => CharUnit(s[i]))
  }

  /** The value has a non-empty string at the end of the path. */
  ghost predicate NamedAt(v: Value, path: seq<string>, id: Text)
    decreases |path|
  {
    if path == [] then v == String(id) && id != []
    else v.Object? && exists m :: m in v.members && IsNamed(m.key, path[0]) && NamedAt(m.value, path[1..], id)
  }

  predicate IsNamed(key: Text, name: string) {
    |key| == |name| && forall i | 0 <= i < |key| :: key[i] == name[i] as int
  }

  /** Where providers put their event ids, in the order of preference. */
  function IdPath(i: nat): seq<string>
    requires i < 5
  {
    [["data", "id"], ["id"], ["event_id"], ["eventId"], ["data", "object", "id"]][i]
  }

  lemma NamesOfPaths()
    ensures IsNamed(DATA, "data") && IsNamed(ID, "id") && IsNamed(OBJECT, "object")
    ensures IsNamed(EVENT_SNAKE_ID, "event_id") && IsNamed(EVENT_CAMEL_ID, "eventId")
  {}

  lemma SameName(a: Text, b: Text, name: string)
    requires IsNamed(a, name)
    ensures IsNamed(b, name) <==> a == b
  {
    if IsNamed(b, name) { assert forall i | 0 <= i < |a| :: a[i] == b[i]; }
  }

  ghost predicate SpelledOut(path: seq<Text>, names: seq<string>) {
    |path| == |names| && forall i | 0 <= i < |path| :: IsNamed(path[i], names[i])
  }

  /** Following a path finds exactly the id that stands there. */
  lemma {:induction false} FollowIsNamedAt(v: Value, path: seq<Text>, names: seq<string>, id: Text)
    requires WellFormed(v) && SpelledOut(path, names)
    ensures Follow(v, path) == Some(id) <==> NamedAt(v, names, id)
    decreases |path|
  {
    if path != [] && v.Object? {
      NamedMember(v.members, path[0]);
      var next := Property(v, path[0]);
      if Member(path[0], next) in v.members {
        FollowIsNamedAt(next, path[1..], names[1..], id);
        forall m | m in v.members && IsNamed(m.key, names[0]) ensures m == Member(path[0], next) {
          SameName(path[0], m.key, names[0]);
        }
      } else {
        forall m | m in v.members ensures !IsNamed(m.key, names[0]) || m.value == Undefined {
          SameName(path[0], m.key, names[0]);
        }
        NothingThere(names[1..], id);
      }
    }
  }

  lemma NothingThere(names: seq<string>, id: Text)
    ensures !NamedAt(Undefined, names, id)
  {}

  lemma PathsSpelledOut(i: nat)
    requires i < 5
    ensures |IDENTITY_PATHS| == 5 && SpelledOut(IDENTITY_PATHS[i], IdPath(i))
  {
    NamesOfPaths();
  }

  lemma {:induction false} FirstFoundAt(v: Value, paths: seq<seq<Text>>, i: nat)
    requires i < |paths| && Follow(v, paths[i]).Some? && forall j | 0 <= j < i :: Follow(v, paths[j]).None?
    ensures FirstFound(v, paths) == Follow(v, paths[i])
  {
    if i > 0 { FirstFoundAt(v, paths[1..], i - 1); }
  }

  lemma {:induction false} NothingFound(v: Value, paths: seq<seq<Text>>)
    requires forall j | 0 <= j < |paths| :: Follow(v, paths[j]).None?
    ensures FirstFound(v, paths) == None
  {
    if paths != [] { NothingFound(v, paths[1..]); }
  }

  /** The id stands at the `i`-th path, and none before it. */
  ghost predicate IsFirstName(v: Value, i: nat, id: Text)
    requires i < 5
  {
    NamedAt(v, IdPath(i), id) && forall j | 0 <= j < i :: Nameless(v, j)
  }

  ghost predicate Nameless(v: Value, i: nat)
    requires i < 5
  {
    forall id :: !NamedAt(v, IdPath(i), id)
  }

  lemma FollowPath(v: Value, i: nat)
    requires WellFormed(v) && i < 5
    ensures |IDENTITY_PATHS| == 5 && (Nameless(v, i) ==> Follow(v, IDENTITY_PATHS[i]).None?)
    ensures forall id | NamedAt(v, IdPath(i), id) :: Follow(v, IDENTITY_PATHS[i]) == Some(id)
  {
    PathsSpelledOut(i);
    forall id ensures Follow(v, IDENTITY_PATHS[i]) == Some(id) <==> NamedAt(v, IdPath(i), id) {
      FollowIsNamedAt(v, IDENTITY_PATHS[i], IdPath(i), id);
    }
  }

  /** The event id is the provider's, from the first path that has one ... */
  lemma EventIdIsFirstName(v: Value, sha256: Text -> Text, i: nat, id: Text)
    requires WellFormed(v) && i < 5 && IsFirstName(v, i, id)
    ensures EventId(v, sha256) == id
  {
    forall j | 0 <= j <= i { FollowPath(v, j); }
    FirstFoundAt(v, IDENTITY_PATHS, i);
  }

  /** ... or else the print's hash, marked as such. */
  lemma EventIdIsHash(v: Value, sha256: Text -> Text)
    requires WellFormed(v) && forall i: nat | i < 5 :: Nameless(v, i)
    ensures EventId(v, sha256) == Chars("sha256:") + sha256(Canonicalise(v))
  {
    forall j: nat | j < 5 { FollowPath(v, j); }
    NothingFound(v, IDENTITY_PATHS);
    assert HASH_PREFIX == Chars("sha256:");
  }

  /** The print uses JSON's own punctuation and words. */
  lemma PrintsJson()
    ensures [QUOTE, COMMA, COLON, BACKSLASH] == Chars("\",:\\")
    ensures [OPEN_BRACKET, CLOSE_BRACKET, OPEN_BRACE, CLOSE_BRACE] == Chars("[]{}")
    ensures NULL_TEXT == Chars("null") && TRUE_TEXT == Chars("true") && FALSE_TEXT == Chars("false")
  {}

  function Hex(n: nat): Unit
    requires n < 16
  {
    CharUnit("0123456789abcdef"[n])
  }

  lemma ShortEscapes()
    ensures EscapeUnit(0x08) == Chars("\\b") && EscapeUnit(0x09) == Chars("\\t") && EscapeUnit(0x0a) == Chars("\\n")
    ensures EscapeUnit(0x0c) == Chars("\\f") && EscapeUnit(0x0d) == Chars("\\r")
    ensures EscapeUnit(0x22) == Chars("\\\"") && EscapeUnit(0x5c) == Chars("\\\\")
  {}

  lemma HexIsDigit(n: nat)
    requires n < 16
    ensures HexDigit(n) == Hex(n)
  {}

  /** Besides the short forms, controls and half pairs are escaped in lower-case hex, and nothing needlessly. */
  lemma LongEscapes(c: Unit)
    ensures c >= 0x20 && c != 0x22 && c != 0x5c && !(0xd800 <= c <= 0xdfff) ==> EscapeUnit(c) == [c]
    ensures c < 0x08 || c == 0x0b || 0x0d < c < 0x20 || 0xd800 <= c <= 0xdfff ==>
      EscapeUnit(c) == Chars("\\u") + [Hex(c / 4096), Hex(c / 256 % 16), Hex(c / 16 % 16), Hex(c % 16)]
  {
    var q, r := c / 16, c / 16 / 16;
    assert r / 16 == c / 4096 && r == c / 256;
    HexIsDigit(r / 16);
    HexIsDigit(r % 16);
    HexIsDigit(q % 16);
    HexIsDigit(c % 16);
  }
}
