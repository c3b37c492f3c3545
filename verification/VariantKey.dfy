/** A supplier's dash-joined variant key, taken apart along its dash-joined list of labels. */
module VariantKey {
  import opened Options

  /** What JavaScript knows about text. */
  datatype Text = Text(trim: string -> string, lower: string -> string)

  function SplitDashes(s: string): (r: seq<string>)
    ensures r != []
  {
    if s == "" then [""]
    else
      var r := SplitDashes(s[1..]);
      if s[0] == '-' then [""] + r else [s[..1] + r[0]] + r[1..]
  }

  function Join(parts: seq<string>): string {
    if parts == [] then "" else if |parts| == 1 then parts[0] else parts[0] + "-" + Join(parts[1..])
  }

  /** Each piece normalised, the empty ones dropped. */
  function Pieces(normal: string -> string, pieces: seq<string>): (r: seq<string>)
    ensures forall p | p in r :: p != ""
  {
    if pieces == [] then []
    else
      var piece := normal(pieces[0]);
      (if piece == "" then [] else [piece]) + Pieces(normal, pieces[1..])
  }

  /** A later entry for the same label wins. */
  function FromEntries(labels: seq<string>, parts: seq<string>): map<string, string>
    requires |labels| == |parts|
  {
    if labels == [] then map[]
    else FromEntries(labels[..|labels| - 1], parts[..|labels| - 1])[labels[|labels| - 1] := parts[|labels| - 1]]
  }

  function SplitCjVariantKey(text: Text, keyOrder: Option<string>, variantKey: Option<string>)
    : Option<map<string, string>>
  {
    if variantKey.None? || variantKey.value == "" then None
    else
      var parts := Pieces(text.trim, SplitDashes(variantKey.value));
      if keyOrder.None? then Some(map["variant" := variantKey.value])
      else
        var labels := Pieces(s => text.lower(text.trim(s)), SplitDashes(keyOrder.value));
        if |labels| == |parts| then Some(FromEntries(labels, parts))
        else Some(map["variant" := variantKey.value])
  }

  // ----- Round trip ------------------------------------------------------------------------------

  predicate DashFree(s: string) { '-' !in s }

  /** Pieces that survive the trip: not empty, without a dash, normal already. */
  predicate Clean(normal: string -> string, pieces: seq<string>) {
    forall p | p in pieces :: p != "" && DashFree(p) && normal(p) == p
  }

  lemma {:induction false} SplitOne(s: string)
    requires DashFree(s)
    ensures SplitDashes(s) == [s]
  {
    if s != "" {
      assert s[0] in s;
      SplitOne(s[1..]);
      assert s[..1] + s[1..] == s;
    }
  }

  lemma {:induction false} SplitFirst(s: string, rest: string)
    requires DashFree(s)
    ensures SplitDashes(s + "-" + rest) == [s] + SplitDashes(rest)
  {
    if s == "" {
      assert "-" + rest == s + "-" + rest && ("-" + rest)[1..] == rest;
    } else {
      var whole := s + "-" + rest;
      assert whole[1..] == s[1..] + "-" + rest;
      assert s[0] in s && whole[0] == s[0] && whole[..1] == s[..1];
      SplitFirst(s[1..], rest);
      assert s[..1] + s[1..] == s;
    }
  }

  lemma {:induction false} SplitJoined(pieces: seq<string>)
    requires pieces != [] && forall p | p in pieces :: DashFree(p)
    ensures SplitDashes(Join(pieces)) == pieces
  {
    if |pieces| == 1 {
      SplitOne(pieces[0]);
    } else {
      SplitJoined(pieces[1..]);
      SplitFirst(pieces[0], Join(pieces[1..]));
      assert [pieces[0]] + pieces[1..] == pieces;
    }
  }

  lemma {:induction false} CleanPieces(normal: string -> string, pieces: seq<string>)
    requires Clean(normal, pieces)
    ensures Pieces(normal, pieces) == pieces
  {
    if pieces != [] {
      assert pieces[0] in pieces;
      CleanPieces(normal, pieces[1..]);
      assert [pieces[0]] + pieces[1..] == pieces;
    }
  }

  /** Clean pieces, joined and split again, are themselves; no pieces at all give no pieces. */
  lemma {:induction false} JoinedPieces(normal: string -> string, pieces: seq<string>)
    requires Clean(normal, pieces) && normal("") == ""
    ensures Pieces(normal, SplitDashes(Join(pieces))) == pieces
  {
    if pieces == [] {
      assert [""][1..] == [];
    } else {
      SplitJoined(pieces);
      CleanPieces(normal, pieces);
    }
  }

  lemma {:induction false} JoinedNotEmpty(pieces: seq<string>)
    requires pieces != [] && forall p | p in pieces :: p != ""
    ensures Join(pieces) != ""
  {
    assert pieces[0] in pieces;
  }

  lemma {:induction false} LastEntryWins(labels: seq<string>, parts: seq<string>, i: nat)
    requires |labels| == |parts| && i < |labels|
    requires forall j | i < j < |labels| :: labels[j] != labels[i]
    ensures labels[i] in FromEntries(labels, parts) && FromEntries(labels, parts)[labels[i]] == parts[i]
  {
    var n := |labels| - 1;
    if i < n { LastEntryWins(labels[..n], parts[..n], i); }
  }

  lemma {:induction false} EntryKeys(labels: seq<string>, parts: seq<string>)
    requires |labels| == |parts|
    ensures FromEntries(labels, parts).Keys == set l | l in labels
  {
    if labels != [] {
      var n := |labels| - 1;
      EntryKeys(labels[..n], parts[..n]);
      assert labels == labels[..n] + [labels[n]];
    }
  }

  lemma {:induction false} LastOf(labels: seq<string>, i: nat) returns (k: nat)
    requires i < |labels|
    ensures i <= k < |labels| && labels[k] == labels[i] && forall j | k < j < |labels| :: labels[j] != labels[i]
    decreases |labels| - i
  {
    if j :| i < j < |labels| && labels[j] == labels[i] {
      k := LastOf(labels, j);
    } else {
      k := i;
    }
  }

  /** Equal labels carry equal parts. */
  predicate Consistent(labels: seq<string>, parts: seq<string>)
    requires |labels| == |parts|
  {
    forall i, j | 0 <= i < |labels| && 0 <= j < |labels| && labels[i] == labels[j] :: parts[i] == parts[j]
  }

  lemma {:induction false} EntriesIff(labels: seq<string>, parts: seq<string>)
    requires |labels| == |parts|
    ensures
      var m := FromEntries(labels, parts);
      && m.Keys == (set l | l in labels)
      && ((forall i | 0 <= i < |labels| :: labels[i] in m && m[labels[i]] == parts[i]) <==> Consistent(labels, parts))
  {
    EntryKeys(labels, parts);
    var m := FromEntries(labels, parts);
    assert forall i | 0 <= i < |labels| :: labels[i] in m.Keys;
    if Consistent(labels, parts) {
      forall i | 0 <= i < |labels| ensures labels[i] in m && m[labels[i]] == parts[i] {
        var k := LastOf(labels, i);
        LastEntryWins(labels, parts, k);
      }
    }
  }

  /**
   Joined labels and parts of equal number come back as exactly the map from each label to its
   part when, and only when, no label stands for two different parts.
   */
  lemma {:induction false} RoundTripIff(text: Text, labels: seq<string>, parts: seq<string>)
    requires |labels| == |parts| > 0
    requires Clean(text.trim, parts) && Clean(s => text.lower(text.trim(s)), labels)
    requires text.trim("") == "" && text.lower("") == ""
    ensures
      var r := SplitCjVariantKey(text, Some(Join(labels)), Some(Join(parts)));
      && r.Some? && r.value.Keys == (set l | l in labels)
      && ((forall i | 0 <= i < |labels| :: labels[i] in r.value && r.value[labels[i]] == parts[i])
          <==> Consistent(labels, parts))
  {
    JoinedPieces(text.trim, parts);
    JoinedPieces(s => text.lower(text.trim(s)), labels);
    JoinedNotEmpty(parts);
    EntriesIff(labels, parts);
  }

  /** When the numbers differ, the whole key is kept under one label. */
  lemma {:induction false} CountsDiffer(text: Text, labels: seq<string>, parts: seq<string>)
    requires |labels| != |parts| && parts != []
    requires Clean(text.trim, parts) && Clean(s => text.lower(text.trim(s)), labels)
    requires text.trim("") == "" && text.lower("") == ""
    ensures SplitCjVariantKey(text, Some(Join(labels)), Some(Join(parts))) == Some(map["variant" := Join(parts)])
  {
    JoinedPieces(text.trim, parts);
    JoinedPieces(s => text.lower(text.trim(s)), labels);
    JoinedNotEmpty(parts);
  }

  /** A key of nothing but dashes, with an empty list of labels, comes back as no label at all. */
  lemma {:induction false} DashesOnly(text: Text)
    requires text.trim("") == "" && text.lower("") == ""
    ensures SplitCjVariantKey(text, Some(""), Some("-")) == Some(map[])
  {
    assert SplitDashes("-") == ["", ""] by { assert "-"[1..] == ""; }
    assert ["", ""][1..] == [""] && [""][1..] == [];
    assert Pieces(text.trim, [""]) == [] && Pieces(text.trim, ["", ""]) == [];
    assert Pieces(s => text.lower(text.trim(s)), [""]) == [];
  }

  /** Pieces are normalised one by one, and those with nothing left are dropped. */
  lemma {:induction false} PiecesJoin(normal: string -> string, pieces: seq<string>, more: seq<string>)
    ensures Pieces(normal, pieces + more) == Pieces(normal, pieces) + Pieces(normal, more)
  {
    if pieces == [] {
      assert pieces + more == more;
    } else {
      assert (pieces + more)[1..] == pieces[1..] + more;
      PiecesJoin(normal, pieces[1..], more);
    }
  }

  lemma PieceOf(normal: string -> string, piece: string)
    ensures Pieces(normal, [piece]) == if normal(piece) == "" then [] else [normal(piece)]
  {
    assert [piece][1..] == [];
  }

  /** Any dash-free pieces, clean or not: parts are trimmed, labels trimmed and put in lower case, empty ones dropped. */
  lemma {:induction false} RawPieces(text: Text, labels: seq<string>, parts: seq<string>)
    requires labels != [] && parts != [] && Join(parts) != ""
    requires (forall p | p in labels :: DashFree(p)) && forall p | p in parts :: DashFree(p)
    ensures
      var r := SplitCjVariantKey(text, Some(Join(labels)), Some(Join(parts)));
      var kept, named := Pieces(text.trim, parts), Pieces(s => text.lower(text.trim(s)), labels);
      && r.Some?
      && (|named| != |kept| ==> r.value == map["variant" := Join(parts)])
      && (|named| == |kept| ==>
            && r.value.Keys == (set l | l in named)
            && forall i | 0 <= i < |named| && (forall j | i < j < |named| :: named[j] != named[i]) ::
                 named[i] in r.value && r.value[named[i]] == kept[i])
  {
    SplitJoined(labels);
    SplitJoined(parts);
    var kept, named := Pieces(text.trim, parts), Pieces(s => text.lower(text.trim(s)), labels);
    if |named| == |kept| {
      EntryKeys(named, kept);
      forall i | 0 <= i < |named| && (forall j | i < j < |named| :: named[j] != named[i])
        ensures named[i] in FromEntries(named, kept) && FromEntries(named, kept)[named[i]] == kept[i]
      {
        LastEntryWins(named, kept, i);
      }
    }
  }

  /** Without a key there is nothing; without a list of labels the whole key stands under one. */
  lemma NothingToSplit(text: Text, keyOrder: Option<string>, variantKey: string)
    ensures SplitCjVariantKey(text, keyOrder, None) == None && SplitCjVariantKey(text, keyOrder, Some("")) == None
    ensures variantKey != "" ==> SplitCjVariantKey(text, None, Some(variantKey)) == Some(map["variant" := variantKey])
  {}
}
