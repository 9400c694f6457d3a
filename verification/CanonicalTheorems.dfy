/** What canonical objects guarantee: exactly which inputs are accepted, and one output for each meaning. */
module CanonicalTheorems {
  import opened Wrappers
  import opened Ordering
  import opened CanonicalJson

  // ---------------------------------------------------------------- what is accepted

  /** Reading a written document gives its meaning, unless it repeats a name or nests too deep somewhere. */
  lemma {:induction false} ReadsText(d: Doc, rest: seq<Token>, depth: nat)
    requires WellTokened(d)
    ensures Read(Text(d) + rest, depth) == if Proper(d, depth) then Got(Value(d), rest) else Fail
    decreases d
  {
    var ts := Text(d) + rest;
    match d
    case Leaf(t) =>
      assert ts[1..] == rest;
    case Array(ds) =>
      assert ts[1..] == TextOfDocs(ds) + ([CloseBracket] + rest);
      if depth <= MAX_DEPTH {
        ReadsItems(ds, rest, depth, []);
        assert [] + Values(ds) == Values(ds);
      }
    case Structure(fs) =>
      assert ts[1..] == TextOfFields(fs) + ([CloseBrace] + rest);
      if depth <= MAX_DEPTH {
        ReadsMembers(fs, rest, depth, map[]);
        assert map[] + Members(fs) == Members(fs);
      }
  }

  lemma {:induction false} ReadsItems(ds: Docs, rest: seq<Token>, depth: nat, items: seq<Json>)
    requires WellTokenedDocs(ds)
    ensures ReadItems(TextOfDocs(ds) + ([CloseBracket] + rest), depth, items) ==
            if ProperDocs(ds, depth + 1) then Got(List(items + Values(ds)), rest) else Fail
    decreases ds
  {
    var close := [CloseBracket] + rest;
    match ds
    case NoDocs =>
      assert TextOfDocs(ds) + close == close;
      assert items + Values(ds) == items;
    case MoreDocs(d, tail) =>
      var after := TextOfDocs(tail) + close;
      assert TextOfDocs(ds) + close == Text(d) + after;
      assert (Text(d) + after)[0] == Text(d)[0];
      ReadsText(d, after, depth + 1);
      if Proper(d, depth + 1) {
        ReadsItems(tail, rest, depth, items + [Value(d)]);
        assert (items + [Value(d)]) + Values(tail) == items + Values(ds);
      }
  }

  lemma FieldsText(name: string, d: Doc, tail: Fields, close: seq<Token>)
    ensures TextOfFields(MoreFields(name, d, tail)) + close == [Name(name)] + (Text(d) + (TextOfFields(tail) + close))
  {
    var head, body := [Name(name)], Text(d);
    assert ((head + body) + TextOfFields(tail)) + close == head + (body + (TextOfFields(tail) + close));
  }

  lemma DisjointStep(names: set<string>, found: map<string, Json>, name: string, v: Json)
    ensures names !! found[name := v].Keys <==> names !! found.Keys && name !in names
  {
    assert found[name := v].Keys == found.Keys + {name};
  }

  lemma JoinStep(found: map<string, Json>, name: string, v: Json, rest: map<string, Json>)
    requires name !in rest
    ensures found[name := v] + rest == found + rest[name := v]
  {
  }

  lemma {:induction false} ReadsMembers(fs: Fields, rest: seq<Token>, depth: nat, found: map<string, Json>)
    requires WellTokenedFields(fs)
    ensures ReadMembers(TextOfFields(fs) + ([CloseBrace] + rest), depth, found) ==
            if ProperFields(fs, depth + 1) && Names(fs) !! found.Keys then Got(Object(found + Members(fs)), rest) else Fail
    decreases fs
  {
    var close := [CloseBrace] + rest;
    match fs
    case NoFields =>
      assert TextOfFields(fs) + close == close;
      assert found + Members(fs) == found;
    case MoreFields(name, d, tail) =>
      var after := TextOfFields(tail) + close;
      FieldsText(name, d, tail, close);
      assert (TextOfFields(fs) + close)[1..] == Text(d) + after;
      ReadsText(d, after, depth + 1);
      if name !in found && Proper(d, depth + 1) {
        ReadsMembers(tail, rest, depth, found[name := Value(d)]);
        DisjointStep(Names(tail), found, name, Value(d));
        if name !in Names(tail) {
          JoinStep(found, name, Value(d), Members(tail));
        }
      }
  }

  /** Leaves are not brackets, so that the text of a document can be told from its structure. */
  predicate WellTokened(d: Doc) {
    match d
    case Leaf(t) => !Delimiter(t)
    case Array(ds) => WellTokenedDocs(ds)
    case Structure(fs) => WellTokenedFields(fs)
  }

  predicate WellTokenedDocs(ds: Docs) {
    match ds
    case NoDocs => true
    case MoreDocs(d, tail) => WellTokened(d) && WellTokenedDocs(tail)
  }

  predicate WellTokenedFields(fs: Fields) {
    match fs
    case NoFields => true
    case MoreFields(_, d, tail) => WellTokened(d) && WellTokenedFields(tail)
  }

  /** Whatever is read was the text of a proper document. */
  lemma {:induction false} ReadIsText(ts: seq<Token>, depth: nat) returns (d: Doc)
    requires Read(ts, depth).Got?
    ensures WellTokened(d) && Proper(d, depth) && ts == Text(d) + Read(ts, depth).rest
    decreases |ts|, 0
  {
    if !Delimiter(ts[0]) {
      d := Leaf(ts[0]);
      assert ts == [ts[0]] + ts[1..];
    } else if ts[0] == OpenBrace {
      var fs := MembersAreText(ts[1..], depth, map[]);
      d := Structure(fs);
      assert ts == [OpenBrace] + ts[1..];
    } else {
      var ds := ItemsAreText(ts[1..], depth, []);
      d := Array(ds);
      assert ts == [OpenBracket] + ts[1..];
    }
  }

  lemma {:induction false} MembersAreText(ts: seq<Token>, depth: nat, found: map<string, Json>) returns (fs: Fields)
    requires ReadMembers(ts, depth, found).Got?
    ensures WellTokenedFields(fs) && ProperFields(fs, depth + 1) && Names(fs) !! found.Keys
    ensures ts == TextOfFields(fs) + ([CloseBrace] + ReadMembers(ts, depth, found).rest)
    decreases |ts|, 1
  {
    if ts[0] == CloseBrace {
      fs := NoFields;
    } else {
      var name, r := ts[0].text, Read(ts[1..], depth + 1);
      var d := ReadIsText(ts[1..], depth + 1);
      var tail := MembersAreText(r.rest, depth, found[name := r.value]);
      fs := MoreFields(name, d, tail);
      DisjointStep(Names(tail), found, name, r.value);
      FieldsText(name, d, tail, [CloseBrace] + ReadMembers(ts, depth, found).rest);
      assert ts == [Name(name)] + ts[1..];
    }
  }

  lemma {:induction false} ItemsAreText(ts: seq<Token>, depth: nat, items: seq<Json>) returns (ds: Docs)
    requires ReadItems(ts, depth, items).Got?
    ensures WellTokenedDocs(ds) && ProperDocs(ds, depth + 1)
    ensures ts == TextOfDocs(ds) + ([CloseBracket] + ReadItems(ts, depth, items).rest)
    decreases |ts|, 1
  {
    if ts[0] == CloseBracket {
      ds := NoDocs;
    } else {
      var r := Read(ts, depth + 1);
      var d := ReadIsText(ts, depth + 1);
      var tail := ItemsAreText(r.rest, depth, items + [r.value]);
      ds := MoreDocs(d, tail);
      var close := [CloseBracket] + ReadItems(ts, depth, items).rest;
      assert TextOfDocs(ds) + close == Text(d) + (TextOfDocs(tail) + close);
    }
  }

  // ---------------------------------------------------------------- what is written

  /** A value some proper document at this depth means. */
  predicate Fits(v: Json, depth: nat)
    decreases v
  {
    depth <= MAX_DEPTH &&
    match v
    case Scalar(t) => !Delimiter(t)
    case List(items) => forall i :: 0 <= i < |items| ==> Fits(items[i], depth + 1)
    case Object(members) => forall k :: k in members ==> Fits(members[k], depth + 1)
  }

  lemma {:induction false} ValueFits(d: Doc, depth: nat)
    requires Proper(d, depth)
    ensures Fits(Value(d), depth)
  {
    match d
    case Leaf(_) =>
    case Array(ds) => ValuesFit(ds, depth + 1);
    case Structure(fs) => MembersFit(fs, depth + 1);
  }

  lemma {:induction false} ValuesFit(ds: Docs, depth: nat)
    requires ProperDocs(ds, depth)
    ensures forall i :: 0 <= i < |Values(ds)| ==> Fits(Values(ds)[i], depth)
  {
    match ds
    case NoDocs =>
    case MoreDocs(d, tail) =>
      ValueFits(d, depth);
      ValuesFit(tail, depth);
  }

  lemma {:induction false} MembersFit(fs: Fields, depth: nat)
    requires ProperFields(fs, depth)
    ensures forall k :: k in Members(fs) ==> Fits(Members(fs)[k], depth)
  {
    match fs
    case NoFields =>
    case MoreFields(_, d, tail) =>
      ValueFits(d, depth);
      MembersFit(tail, depth);
  }

  function NameList(fs: Fields): seq<string> {
    match fs
    case NoFields => []
    case MoreFields(name, _, tail) => [name] + NameList(tail)
  }

  /** Every object's names ascend, at every depth. */
  predicate Sorted(d: Doc) {
    match d
    case Leaf(_) => true
    case Array(ds) => SortedDocs(ds)
    case Structure(fs) => Ascend(NameList(fs)) && SortedFields(fs)
  }

  predicate SortedDocs(ds: Docs) {
    match ds
    case NoDocs => true
    case MoreDocs(d, tail) => Sorted(d) && SortedDocs(tail)
  }

  predicate SortedFields(fs: Fields) {
    match fs
    case NoFields => true
    case MoreFields(_, d, tail) => Sorted(d) && SortedFields(tail)
  }

  /** A written value is a proper, sorted document that means the value. */
  lemma {:induction false} RenderMeans(v: Json, depth: nat)
    requires Fits(v, depth)
    ensures var d := Render(v); Proper(d, depth) && WellTokened(d) && Sorted(d) && Value(d) == v
    decreases v
  {
    match v
    case Scalar(_) =>
    case List(items) => RenderItemsMeans(v, 0, depth + 1);
    case Object(members) =>
      var names := Ascending(members.Keys);
      AscendingLists(members.Keys);
      AscendExactly(names);
      assert forall k :: k in names <==> k in Elements(names);
      RenderFieldsMeans(v, names, depth + 1);
      assert Members(RenderFields(v, names)) == members;
  }

  lemma {:induction false} RenderItemsMeans(v: Json, from: nat, depth: nat)
    requires v.List? && from <= |v.items| && forall i :: 0 <= i < |v.items| ==> Fits(v.items[i], depth)
    ensures var ds := RenderItems(v, from);
            ProperDocs(ds, depth) && WellTokenedDocs(ds) && SortedDocs(ds) && Values(ds) == v.items[from..]
    decreases v, |v.items| - from
  {
    if from < |v.items| {
      RenderMeans(v.items[from], depth);
      RenderItemsMeans(v, from + 1, depth);
    }
  }

  lemma FirstIsApart(names: seq<string>)
    requires names != [] && StrictlyAscending(names)
    ensures names[0] !in names[1..] && StrictlyAscending(names[1..])
  {
    var rest := names[1..];
    forall i | 0 <= i < |rest|
      ensures rest[i] != names[0]
    {
      assert Below(names[0], names[i + 1]);
      Trichotomy(names[0], rest[i]);
    }
  }

  lemma {:induction false} RenderFieldsMeans(v: Json, names: seq<string>, depth: nat)
    requires v.Object? && (forall k :: k in names ==> k in v.members) && StrictlyAscending(names)
    requires forall k :: k in v.members ==> Fits(v.members[k], depth)
    ensures var fs := RenderFields(v, names);
            && ProperFields(fs, depth) && WellTokenedFields(fs) && SortedFields(fs)
            && NameList(fs) == names && Names(fs) == Elements(names)
            && forall k :: k in names ==> Members(fs)[k] == v.members[k]
    decreases v, |names|
  {
    if names != [] {
      var name, rest := names[0], names[1..];
      assert names == [name] + rest;
      assert name in names;
      RenderMeans(v.members[name], depth);
      RenderFieldsMeans(v, rest, depth);
      FirstIsApart(names);
    }
  }

  /** A sorted proper document is written back as it is. */
  lemma {:induction false} RenderFixes(d: Doc, depth: nat)
    requires Proper(d, depth) && Sorted(d)
    ensures Render(Value(d)) == d
    decreases d
  {
    match d
    case Leaf(_) =>
    case Array(ds) => RenderItemsFixes(Value(d), 0, ds, depth + 1);
    case Structure(fs) =>
      NamesAreListed(fs);
      AscendExactly(NameList(fs));
      AscendingIsUnique(NameList(fs));
      RenderFieldsFixes(Value(d), fs, depth + 1);
  }

  lemma {:induction false} NamesAreListed(fs: Fields)
    ensures Elements(NameList(fs)) == Names(fs)
  {
    match fs
    case NoFields =>
    case MoreFields(name, _, tail) =>
      NamesAreListed(tail);
      assert Elements([name] + NameList(tail)) == {name} + Elements(NameList(tail));
  }

  lemma {:induction false} RenderItemsFixes(v: Json, from: nat, ds: Docs, depth: nat)
    requires v.List? && from <= |v.items| && v.items[from..] == Values(ds) && ProperDocs(ds, depth) && SortedDocs(ds)
    ensures RenderItems(v, from) == ds
    decreases ds
  {
    match ds
    case NoDocs =>
    case MoreDocs(d, tail) =>
      assert v.items[from] == v.items[from..][0];
      assert v.items[from + 1..] == v.items[from..][1..];
      RenderFixes(d, depth);
      RenderItemsFixes(v, from + 1, tail, depth);
  }

  lemma {:induction false} RenderFieldsFixes(v: Json, fs: Fields, depth: nat)
    requires v.Object? && ProperFields(fs, depth) && SortedFields(fs)
    requires forall k :: k in Names(fs) ==> k in v.members && v.members[k] == Members(fs)[k]
    ensures (forall k :: k in NameList(fs) ==> k in v.members) && RenderFields(v, NameList(fs)) == fs
    decreases fs
  {
    NamesAreListed(fs);
    assert forall k :: k in NameList(fs) ==> k in Elements(NameList(fs));
    match fs
    case NoFields =>
    case MoreFields(name, d, tail) =>
      RenderFixes(d, depth);
      RenderFieldsFixes(v, tail, depth);
      assert NameList(fs)[1..] == NameList(tail);
  }

  // ---------------------------------------------------------------- equal up to the order of names

  function Length(fs: Fields): nat {
    match fs
    case NoFields => 0
    case MoreFields(_, _, tail) => 1 + Length(tail)
  }

  function Field(fs: Fields, name: string): (d: Doc)
    requires name in Names(fs)
    ensures name in Members(fs) && Value(d) == Members(fs)[name]
  {
    if fs.name == name then fs.value else Field(fs.tail, name)
  }

  /** The same document, but for the order of names at any depth. */
  predicate Reordered(d: Doc, e: Doc) {
    match d
    case Leaf(_) => d == e
    case Array(ds) => e.Array? && ReorderedDocs(ds, e.docs)
    case Structure(fs) => e.Structure? && Names(fs) == Names(e.fields) && Length(fs) == Length(e.fields) && ReorderedFields(fs, e.fields)
  }

  predicate ReorderedDocs(ds: Docs, es: Docs) {
    match ds
    case NoDocs => es.NoDocs?
    case MoreDocs(d, tail) => es.MoreDocs? && Reordered(d, es.head) && ReorderedDocs(tail, es.tail)
  }

  predicate ReorderedFields(fs: Fields, gs: Fields) {
    match fs
    case NoFields => true
    case MoreFields(name, d, tail) => name in Names(gs) && Reordered(d, Field(gs, name)) && ReorderedFields(tail, gs)
  }

  predicate Unique(fs: Fields) {
    match fs
    case NoFields => true
    case MoreFields(name, _, tail) => name !in Names(tail) && Unique(tail)
  }

  lemma {:induction false} UniqueExactly(fs: Fields)
    ensures |Names(fs)| <= Length(fs) && (Unique(fs) <==> |Names(fs)| == Length(fs))
  {
    match fs
    case NoFields =>
    case MoreFields(name, _, tail) =>
      UniqueExactly(tail);
      if name in Names(tail) {
        assert {name} + Names(tail) == Names(tail);
      }
  }

  lemma {:induction false} ProperIsUnique(fs: Fields, depth: nat)
    requires ProperFields(fs, depth)
    ensures Unique(fs)
  {
    match fs
    case NoFields =>
    case MoreFields(_, _, tail) => ProperIsUnique(tail, depth);
  }

  lemma {:induction false} ProperFieldByField(fs: Fields, gs: Fields, depth: nat)
    requires Unique(fs) && Names(fs) <= Names(gs) && forall k :: k in Names(fs) ==> Field(gs, k) == Field(fs, k)
    requires forall k :: k in Names(gs) ==> Proper(Field(gs, k), depth)
    ensures ProperFields(fs, depth)
    decreases fs
  {
    match fs
    case NoFields =>
    case MoreFields(name, d, tail) =>
      assert Field(fs, name) == d;
      ProperFieldByField(tail, gs, depth);
  }

  /** Reordering keeps a document proper and keeps its meaning. */
  lemma {:induction false} ReorderingKeepsMeaning(d: Doc, e: Doc, depth: nat)
    requires Reordered(d, e) && Proper(d, depth)
    ensures Proper(e, depth) && Value(e) == Value(d)
    decreases d
  {
    match d
    case Leaf(_) =>
    case Array(ds) => ReorderedDocsMean(ds, e.docs, depth + 1);
    case Structure(fs) =>
      var gs := e.fields;
      ReorderedFieldsMean(fs, gs, depth + 1);
      ProperIsUnique(fs, depth + 1);
      UniqueExactly(fs);
      UniqueExactly(gs);
      ProperFieldByField(gs, gs, depth + 1);
      assert Members(gs) == Members(fs);
  }

  lemma {:induction false} ReorderedDocsMean(ds: Docs, es: Docs, depth: nat)
    requires ReorderedDocs(ds, es) && ProperDocs(ds, depth)
    ensures ProperDocs(es, depth) && Values(es) == Values(ds)
    decreases ds
  {
    match ds
    case NoDocs =>
    case MoreDocs(d, tail) =>
      ReorderingKeepsMeaning(d, es.head, depth);
      ReorderedDocsMean(tail, es.tail, depth);
  }

  lemma {:induction false} ReorderedFieldsMean(fs: Fields, gs: Fields, depth: nat)
    requires ReorderedFields(fs, gs) && ProperFields(fs, depth)
    ensures forall k :: k in Names(fs) ==>
              k in Names(gs) && Proper(Field(gs, k), depth) && Members(gs)[k] == Members(fs)[k]
    decreases fs
  {
    match fs
    case NoFields =>
    case MoreFields(name, d, tail) =>
      ReorderingKeepsMeaning(d, Field(gs, name), depth);
      ReorderedFieldsMean(tail, gs, depth);
  }

  // ---------------------------------------------------------------- canonical objects

  /** These bytes are the text of an object document. */
  predicate IsText(raw: Raw, d: Doc) {
    raw.clean && d.Structure? && WellTokened(d) && raw.tokens == Text(d)
  }

  ghost predicate Accepted(raw: Raw, width: Width, d: Doc) {
    && 0 < raw.length <= MAX_BYTES && IsText(raw, d) && Proper(d, 0)
    && width(Text(Render(Value(d)))) <= MAX_BYTES
  }

  /** On the text of an object: refused exactly when some object repeats a name, nesting is too deep, or a size is over. */
  lemma CanonicalOfText(raw: Raw, width: Width, d: Doc)
    requires IsText(raw, d)
    ensures CanonicalObject(raw, width).Some? <==> Accepted(raw, width, d)
    ensures Accepted(raw, width, d) ==>
              var data := Text(Render(Value(d))); CanonicalObject(raw, width) == Some(Raw(width(data), data, true))
  {
    ReadsText(d, [], 0);
    assert Text(d) + [] == Text(d);
  }

  /** What is accepted, exactly: the text of an object without repeated names, within the bounds. */
  lemma AcceptedExactly(raw: Raw, width: Width)
    ensures CanonicalObject(raw, width).Some? <==> exists d :: Accepted(raw, width, d)
  {
    if CanonicalObject(raw, width).Some? {
      var d := ReadIsText(raw.tokens, 0);
      assert Text(d) + [] == Text(d);
      ReadsText(d, [], 0);
      assert Accepted(raw, width, d);
    }
    if d :| Accepted(raw, width, d) {
      CanonicalOfText(raw, width, d);
    }
  }

  /** Objects equal up to the order of names have the same canonical bytes, or are both refused. */
  lemma OrderDoesNotMatter(raw: Raw, other: Raw, width: Width, d: Doc, e: Doc)
    requires IsText(raw, d) && IsText(other, e) && Reordered(d, e) && Reordered(e, d)
    requires 0 < raw.length <= MAX_BYTES && 0 < other.length <= MAX_BYTES
    ensures CanonicalObject(raw, width) == CanonicalObject(other, width)
  {
    CanonicalOfText(raw, width, d);
    CanonicalOfText(other, width, e);
    if Proper(d, 0) {
      ReorderingKeepsMeaning(d, e, 0);
    }
    if Proper(e, 0) {
      ReorderingKeepsMeaning(e, d, 0);
    }
  }

  /** Canonical bytes are the text of a sorted object with the same meaning, and canonicalizing them again changes nothing. */
  lemma CanonicalIsFixed(raw: Raw, width: Width, c: Raw)
    requires CanonicalObject(raw, width) == Some(c) && Measures(width)
    ensures CanonicalObject(c, width) == Some(c)
    ensures exists d, e :: IsText(raw, d) && IsText(c, e) && Proper(d, 0) && Proper(e, 0) && Sorted(e) && Value(e) == Value(d)
  {
    AcceptedExactly(raw, width);
    var d :| Accepted(raw, width, d);
    CanonicalOfText(raw, width, d);
    ValueFits(d, 0);
    RenderMeans(Value(d), 0);
    var e := Render(Value(d));
    assert IsText(c, e);
    CanonicalOfText(c, width, e);
  }

  /** Bytes that already are a sorted object keep their tokens. */
  lemma SortedIsKept(raw: Raw, width: Width, d: Doc)
    requires IsText(raw, d) && Sorted(d) && Proper(d, 0) && 0 < raw.length <= MAX_BYTES
    ensures CanonicalObject(raw, width) == if width(raw.tokens) <= MAX_BYTES then Some(Raw(width(raw.tokens), raw.tokens, true)) else None
  {
    RenderFixes(d, 0);
    CanonicalOfText(raw, width, d);
  }
}
