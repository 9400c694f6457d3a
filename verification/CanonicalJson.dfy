/**
 Canonical JSON objects: a document is read from its tokens into maps and lists, refusing duplicate
 names and deep nesting, and written back with its names in ascending order.

 Commas, colons, escapes and white space are below this model: the input is the tokens a lexer finds,
 with decoded strings and literal numbers.
 */
module CanonicalJson {
  import opened Wrappers
  import opened Ordering

  datatype Token =
    | OpenBrace | CloseBrace | OpenBracket | CloseBracket
    | Name(text: string) | Number(literal: string) | Boolean(value: bool) | Nil

  /** Input bytes: how many, the tokens up to the first lexical fault, and whether there is none. */
  datatype Raw = Raw(length: nat, tokens: seq<Token>, clean: bool)

  /** A value as it is held in memory. */
  datatype Json = Scalar(token: Token) | List(items: seq<Json>) | Object(members: map<string, Json>)

  datatype Reading = Fail | Got(value: Json, rest: seq<Token>)

  const MAX_DEPTH := 32
  const MAX_BYTES := 65536

  predicate Delimiter(t: Token) {
    t == OpenBrace || t == CloseBrace || t == OpenBracket || t == CloseBracket
  }

  // ---------------------------------------------------------------- reading

  function Read(ts: seq<Token>, depth: nat): (r: Reading)
    ensures r.Got? ==> |r.rest| < |ts|
    decreases |ts|, 0
  {
    if depth > MAX_DEPTH || ts == [] then Fail
    else if !Delimiter(ts[0]) then Got(Scalar(ts[0]), ts[1..])
    else if ts[0] == OpenBrace then ReadMembers(ts[1..], depth, map[])
    else if ts[0] == OpenBracket then ReadItems(ts[1..], depth, [])
    else Fail
  }

  function ReadMembers(ts: seq<Token>, depth: nat, found: map<string, Json>): (r: Reading)
    ensures r.Got? ==> |r.rest| < |ts|
    decreases |ts|, 1
  {
    if ts == [] then Fail
    else if ts[0] == CloseBrace then Got(Object(found), ts[1..])
    else if !ts[0].Name? || ts[0].text in found then Fail
    else
      match Read(ts[1..], depth + 1)
      case Fail => Fail
      case Got(v, rest) => ReadMembers(rest, depth, found[ts[0].text := v])
  }

  function ReadItems(ts: seq<Token>, depth: nat, items: seq<Json>): (r: Reading)
    ensures r.Got? ==> |r.rest| < |ts|
    decreases |ts|, 1
  {
    if ts == [] then Fail
    else if ts[0] == CloseBracket then Got(List(items), ts[1..])
    else if ts[0] == CloseBrace then Fail
    else
      match Read(ts, depth + 1)
      case Fail => Fail
      case Got(v, rest) => ReadItems(rest, depth, items + [v])
  }

  // ---------------------------------------------------------------- documents

  /** A document as written: fields and items in order, names possibly repeated. */
  datatype Doc = Leaf(token: Token) | Array(docs: Docs) | Structure(fields: Fields)
  datatype Docs = NoDocs | MoreDocs(head: Doc, tail: Docs)
  datatype Fields = NoFields | MoreFields(name: string, value: Doc, tail: Fields)

  function Text(d: Doc): seq<Token> {
    match d
    case Leaf(t) => [t]
    case Array(ds) => [OpenBracket] + TextOfDocs(ds) + [CloseBracket]
    case Structure(fs) => [OpenBrace] + TextOfFields(fs) + [CloseBrace]
  }

  function TextOfDocs(ds: Docs): seq<Token> {
    match ds
    case NoDocs => []
    case MoreDocs(d, tail) => Text(d) + TextOfDocs(tail)
  }

  function TextOfFields(fs: Fields): seq<Token> {
    match fs
    case NoFields => []
    case MoreFields(name, d, tail) => [Name(name)] + Text(d) + TextOfFields(tail)
  }

  function Names(fs: Fields): set<string> {
    match fs
    case NoFields => {}
    case MoreFields(name, _, tail) => {name} + Names(tail)
  }

  /** Leaves are scalars, no object repeats a name, and nesting at `depth` stays within the bound. */
  predicate Proper(d: Doc, depth: nat) {
    depth <= MAX_DEPTH &&
    match d
    case Leaf(t) => !Delimiter(t)
    case Array(ds) => ProperDocs(ds, depth + 1)
    case Structure(fs) => ProperFields(fs, depth + 1)
  }

  predicate ProperDocs(ds: Docs, depth: nat) {
    match ds
    case NoDocs => true
    case MoreDocs(d, tail) => Proper(d, depth) && ProperDocs(tail, depth)
  }

  predicate ProperFields(fs: Fields, depth: nat) {
    match fs
    case NoFields => true
    case MoreFields(name, d, tail) => name !in Names(tail) && Proper(d, depth) && ProperFields(tail, depth)
  }

  /** What a document means: names without order. */
  function Value(d: Doc): Json {
    match d
    case Leaf(t) => Scalar(t)
    case Array(ds) => List(Values(ds))
    case Structure(fs) => Object(Members(fs))
  }

  function Values(ds: Docs): seq<Json> {
    match ds
    case NoDocs => []
    case MoreDocs(d, tail) => [Value(d)] + Values(tail)
  }

  function Members(fs: Fields): (m: map<string, Json>)
    ensures m.Keys == Names(fs)
  {
    match fs
    case NoFields => map[]
    case MoreFields(name, d, tail) => Members(tail)[name := Value(d)]
  }

  // ---------------------------------------------------------------- writing

  /** The document with every object's names in ascending order. */
  function Render(v: Json): Doc
    decreases v
  {
    match v
    case Scalar(t) => Leaf(t)
    case List(items) => Array(RenderItems(v, 0))
    case Object(members) =>
      AscendingLists(members.Keys);
      assert forall k :: k in Ascending(members.Keys) ==> k in Elements(Ascending(members.Keys));
      Structure(RenderFields(v, Ascending(members.Keys)))
  }

  function RenderItems(v: Json, from: nat): Docs
    requires v.List? && from <= |v.items|
    decreases v, |v.items| - from
  {
    if from == |v.items| then NoDocs else MoreDocs(Render(v.items[from]), RenderItems(v, from + 1))
  }

  function RenderFields(v: Json, names: seq<string>): Fields
    requires v.Object? && forall k :: k in names ==> k in v.members
    decreases v, |names|
  {
    if names == [] then NoFields
    else MoreFields(names[0], Render(v.members[names[0]]), RenderFields(v, names[1..]))
  }

  /** How many bytes some tokens take when written. */
  type Width = seq<Token> -> nat

  ghost predicate Measures(width: Width) {
    forall ts :: ts != [] ==> width(ts) > 0
  }

  /** The canonical bytes of an object, or None when it is refused. */
  function CanonicalObject(raw: Raw, width: Width): Option<Raw> {
    if raw.length == 0 || raw.length > MAX_BYTES then None
    else
      match Read(raw.tokens, 0)
      case Fail => None
      case Got(v, rest) =>
        if !v.Object? || rest != [] || !raw.clean then None
        else
          var data := Text(Render(v));
          if width(data) > MAX_BYTES then None else Some(Raw(width(data), data, true))
  }

  // ---------------------------------------------------------------- the decoder

  class Decoder {
    var rest: seq<Token>

    constructor (tokens: seq<Token>)
      ensures rest == tokens
    {
      rest := tokens;
    }

    /** The next token, or None at the end of the input or a lexical fault. */
    method Next() returns (token: Option<Token>)
      modifies this
      ensures old(rest) == [] ==> token == None && rest == []
      ensures old(rest) != [] ==> token == Some(old(rest)[0]) && rest == old(rest)[1..]
    {
      if rest == [] {
        return None;
      }
      token := Some(rest[0]);
      rest := rest[1..];
    }

    predicate More()
      reads this
    {
      rest != [] && rest[0] != CloseBrace && rest[0] != CloseBracket
    }

    method ReadValue(depth: nat) returns (value: Option<Json>)
      modifies this
      ensures value.Some? <==> Read(old(rest), depth).Got?
      ensures value.Some? ==> Read(old(rest), depth) == Got(value.value, rest)
      decreases |rest|, 1
    {
      if depth > MAX_DEPTH {
        return None;
      }
      var token := Next();
      if token.None? {
        return None;
      }
      if !Delimiter(token.value) {
        return Some(Scalar(token.value));
      }
      match token.value {
        case OpenBrace => value := ReadObject(depth);
        case OpenBracket => value := ReadArray(depth);
        case _ => value := None;
      }
    }

    method ReadObject(depth: nat) returns (value: Option<Json>)
      modifies this
      ensures value.Some? <==> ReadMembers(old(rest), depth, map[]).Got?
      ensures value.Some? ==> ReadMembers(old(rest), depth, map[]) == Got(value.value, rest)
      decreases |rest|, 2
    {
      var found: map<string, Json> := map[];
      while More()
        invariant |rest| <= old(|rest|)
        invariant ReadMembers(rest, depth, found) == ReadMembers(old(rest), depth, map[])
        decreases |rest|
      {
        var key := Next();
        if !key.value.Name? {
          return None;
        }
        var name := key.value.text;
        if name in found {
          return None;
        }
        var v := ReadValue(depth + 1);
        if v.None? {
          return None;
        }
        found := found[name := v.value];
      }
      var end := Next();
      if end != Some(CloseBrace) {
        return None;
      }
      value := Some(Object(found));
    }

    method ReadArray(depth: nat) returns (value: Option<Json>)
      modifies this
      ensures value.Some? <==> ReadItems(old(rest), depth, []).Got?
      ensures value.Some? ==> ReadItems(old(rest), depth, []) == Got(value.value, rest)
      decreases |rest|, 2
    {
      var items: seq<Json> := [];
      while More()
        invariant |rest| <= old(|rest|)
        invariant ReadItems(rest, depth, items) == ReadItems(old(rest), depth, [])
        decreases |rest|
      {
        var v := ReadValue(depth + 1);
        if v.None? {
          return None;
        }
        items := items + [v.value];
      }
      var end := Next();
      if end != Some(CloseBracket) {
        return None;
      }
      value := Some(List(items));
    }
  }

  method Canonicalize(raw: Raw, width: Width) returns (canonical: Option<Raw>)
    ensures canonical == CanonicalObject(raw, width)
  {
    if raw.length == 0 || raw.length > MAX_BYTES {
      return None;
    }
    var d := new Decoder(raw.tokens);
    var value := d.ReadValue(0);
    if value.None? {
      return None;
    }
    if !value.value.Object? {
      return None;
    }
    var end := d.Next();
    if end.Some? || !raw.clean {
      return None;
    }
    var data := Text(Render(value.value));
    if width(data) > MAX_BYTES {
      return None;
    }
    canonical := Some(Raw(width(data), data, true));
  }
}
