/**
 Sealing an immutable diagnostic item: its body is made canonical, its parents are sorted, its times
 are moved to UTC, and the hash is taken over the whole envelope.
 */
module Sealing {
  import opened Wrappers
  import opened Ordering
  import opened Observations
  import opened CanonicalJson
  import CanonicalTheorems

  /** An instant with the zone it is written in; zone 0 is UTC. */
  datatype Stamp = Stamp(instant: int, zone: int)

  datatype ItemKind = EvidenceItem | ClaimItem | OtherItem

  datatype Item = Item(
    scope: string, incidentId: string, id: string, version: int, kind: ItemKind,
    body: Raw, observedAt: Stamp, validUntil: Stamp, parents: seq<ItemRef>, hash: string
  )

  /** What sealing leaves to others: which names are valid, how long text is, and the encoding and digest of an envelope. */
  datatype Context = Context(
    validScope: string -> bool, validId: string -> bool, width: Width, encodes: Item -> bool, digest: Item -> string
  )

  // ---------------------------------------------------------------- parents

  predicate RefBelow(a: ItemRef, b: ItemRef) {
    if a.id == b.id then a.version < b.version else Below(a.id, b.id)
  }

  function Insert(p: ItemRef, ps: seq<ItemRef>): seq<ItemRef> {
    if ps == [] || !RefBelow(ps[0], p) then [p] + ps else [ps[0]] + Insert(p, ps[1..])
  }

  function SortRefs(ps: seq<ItemRef>): seq<ItemRef> {
    if ps == [] then [] else Insert(ps[0], SortRefs(ps[1..]))
  }

  predicate SortedRefs(ps: seq<ItemRef>) {
    forall i, j :: 0 <= i < j < |ps| ==> !RefBelow(ps[j], ps[i])
  }

  lemma RefsAreOrdered(a: ItemRef, b: ItemRef)
    ensures a == b || RefBelow(a, b) || RefBelow(b, a)
    ensures !(RefBelow(a, b) && RefBelow(b, a)) && !RefBelow(a, a)
  {
    Trichotomy(a.id, b.id);
  }

  /** Not below is transitive. */
  lemma RefsChain(a: ItemRef, b: ItemRef, c: ItemRef)
    requires !RefBelow(b, a) && !RefBelow(c, b)
    ensures !RefBelow(c, a)
  {
    Trichotomy(a.id, b.id);
    Trichotomy(b.id, c.id);
    Trichotomy(a.id, c.id);
    if Below(a.id, b.id) && Below(b.id, c.id) {
      Transitive(a.id, b.id, c.id);
    }
  }

  lemma {:induction false} InsertKeeps(p: ItemRef, ps: seq<ItemRef>)
    requires SortedRefs(ps)
    ensures SortedRefs(Insert(p, ps)) && multiset(Insert(p, ps)) == multiset(ps) + multiset{p}
  {
    if ps == [] {
    } else if !RefBelow(ps[0], p) {
      forall j | 0 <= j < |ps|
        ensures !RefBelow(ps[j], p)
      {
        if j > 0 {
          RefsChain(p, ps[0], ps[j]);
        }
      }
    } else {
      var rest := Insert(p, ps[1..]);
      InsertKeeps(p, ps[1..]);
      assert ps == [ps[0]] + ps[1..];
      forall j | 0 <= j < |rest|
        ensures !RefBelow(rest[j], ps[0])
      {
        assert rest[j] in multiset(ps[1..]) + multiset{p};
        if rest[j] in ps[1..] {
          var i :| 0 <= i < |ps[1..]| && ps[1..][i] == rest[j];
        } else {
          RefsAreOrdered(ps[0], p);
        }
      }
    }
  }

  /** Sorting yields a sorted permutation. */
  lemma {:induction false} SortSorts(ps: seq<ItemRef>)
    ensures SortedRefs(SortRefs(ps)) && multiset(SortRefs(ps)) == multiset(ps)
  {
    if ps != [] {
      SortSorts(ps[1..]);
      InsertKeeps(ps[0], SortRefs(ps[1..]));
      assert ps == [ps[0]] + ps[1..];
    }
  }

  lemma WithoutFirst(a: seq<ItemRef>)
    requires a != []
    ensures multiset(a[1..]) == multiset(a) - multiset{a[0]}
  {
    assert a == [a[0]] + a[1..];
  }

  lemma FirstsAgree(a: seq<ItemRef>, b: seq<ItemRef>)
    requires SortedRefs(a) && SortedRefs(b) && multiset(a) == multiset(b) && a != []
    ensures b != [] && a[0] == b[0]
  {
    assert a[0] in multiset(b);
    var i :| 0 <= i < |b| && b[i] == a[0];
    assert b[0] in multiset(a);
    var j :| 0 <= j < |a| && a[j] == b[0];
    RefsAreOrdered(a[0], b[0]);
  }

  /** Only one permutation is sorted. */
  lemma {:induction false} SortedIsUnique(a: seq<ItemRef>, b: seq<ItemRef>)
    requires SortedRefs(a) && SortedRefs(b) && multiset(a) == multiset(b)
    ensures a == b
  {
    if a != [] {
      FirstsAgree(a, b);
      WithoutFirst(a);
      WithoutFirst(b);
      SortedIsUnique(a[1..], b[1..]);
      assert a == [a[0]] + a[1..] && b == [b[0]] + b[1..];
    } else {
      assert |multiset(b)| == |b|;
    }
  }

  lemma SortIgnoresOrder(a: seq<ItemRef>, b: seq<ItemRef>)
    requires multiset(a) == multiset(b)
    ensures SortRefs(a) == SortRefs(b)
  {
    SortSorts(a);
    SortSorts(b);
    SortedIsUnique(SortRefs(a), SortRefs(b));
  }

  lemma SortIsIdempotent(a: seq<ItemRef>)
    ensures SortRefs(SortRefs(a)) == SortRefs(a)
  {
    SortSorts(a);
    SortIgnoresOrder(SortRefs(a), a);
  }

  // ---------------------------------------------------------------- sealing

  predicate EnvelopeAllowed(i: Item, ctx: Context) {
    && ctx.validScope(i.scope) && ctx.validId(i.incidentId) && ctx.validId(i.id) && i.version >= 1
    && i.kind != OtherItem && i.observedAt.instant != 0 && i.observedAt.instant < i.validUntil.instant
    && |i.parents| <= 64
  }

  predicate ParentAllowed(p: ItemRef, i: Item, ctx: Context) {
    ctx.validId(p.id) && p.version >= 1 && p != ItemRef(i.id, i.version)
  }

  /** Each parent is allowed and differs from the one before. */
  predicate ParentsAllowed(parents: seq<ItemRef>, i: Item, ctx: Context) {
    forall n :: 0 <= n < |parents| ==> ParentAllowed(parents[n], i, ctx) && (n > 0 ==> parents[n] != parents[n - 1])
  }

  function Utc(s: Stamp): Stamp {
    s.(zone := 0)
  }

  function Envelope(i: Item, body: Raw): Item {
    i.(body := body, parents := SortRefs(i.parents), observedAt := Utc(i.observedAt), validUntil := Utc(i.validUntil), hash := "")
  }

  function Seal(i: Item, ctx: Context): Option<Item> {
    if !EnvelopeAllowed(i, ctx) then None
    else
      match CanonicalObject(i.body, ctx.width)
      case None => None
      case Some(body) =>
        if !ParentsAllowed(SortRefs(i.parents), i, ctx) then None
        else
          var sealed := Envelope(i, body);
          if !ctx.encodes(sealed) then None else Some(sealed.(hash := ctx.digest(sealed)))
  }

  /** An item that is sealed in place. */
  class ItemHolder {
    var item: Item

    constructor (i: Item)
      ensures item == i
    {
      item := i;
    }

    method SealItem(ctx: Context) returns (ok: bool)
      modifies this
      ensures ok <==> Seal(old(item), ctx).Some?
      ensures item == if ok then Seal(old(item), ctx).value else old(item)
    {
      if !EnvelopeAllowed(item, ctx) {
        return false;
      }
      var body := Canonicalize(item.body, ctx.width);
      if body.None? {
        return false;
      }
      var parents := SortRefs(item.parents);
      for n := 0 to |parents|
        invariant item == old(item)
        invariant forall m :: 0 <= m < n ==> ParentAllowed(parents[m], item, ctx) && (m > 0 ==> parents[m] != parents[m - 1])
      {
        var p := parents[n];
        if !ctx.validId(p.id) || p.version < 1 || (p.id == item.id && p.version == item.version) || (n > 0 && p == parents[n - 1]) {
          return false;
        }
      }
      var sealed := item.(body := body.value, parents := parents, observedAt := Utc(item.observedAt),
                          validUntil := Utc(item.validUntil), hash := "");
      if !ctx.encodes(sealed) {
        return false;
      }
      item := sealed.(hash := ctx.digest(sealed));
      ok := true;
    }
  }

  // ---------------------------------------------------------------- what sealing guarantees

  predicate Distinct(ps: seq<ItemRef>) {
    forall i, j :: 0 <= i < j < |ps| ==> ps[i] != ps[j]
  }

  lemma SortedNeighbours(ps: seq<ItemRef>)
    requires SortedRefs(ps) && forall n :: 0 < n < |ps| ==> ps[n] != ps[n - 1]
    ensures Distinct(ps)
  {
    forall i, j | 0 <= i < j < |ps|
      ensures ps[i] != ps[j]
    {
      assert ps[i + 1] != ps[i];
      RefsAreOrdered(ps[i], ps[i + 1]);
    }
  }

  lemma {:induction false} DistinctIsMultiset(ps: seq<ItemRef>)
    ensures Distinct(ps) <==> forall p :: multiset(ps)[p] <= 1
  {
    if ps != [] {
      var p, rest := ps[0], ps[1..];
      assert ps == [p] + rest;
      DistinctIsMultiset(rest);
      if Distinct(ps) {
        assert p !in rest;
      } else if Distinct(rest) {
        assert p in rest;
        assert multiset(ps)[p] >= 2;
      } else {
        var q :| multiset(rest)[q] > 1;
        assert multiset(ps)[q] > 1;
      }
    }
  }

  lemma PermutationKeeps(a: seq<ItemRef>, b: seq<ItemRef>)
    requires multiset(a) == multiset(b)
    ensures (forall p :: p in a <==> p in b) && (Distinct(a) <==> Distinct(b))
  {
    DistinctIsMultiset(a);
    DistinctIsMultiset(b);
    assert forall p :: p in a <==> p in multiset(b);
  }

  lemma AllowedInOrder(ps: seq<ItemRef>, i: Item, ctx: Context)
    requires SortedRefs(ps)
    ensures ParentsAllowed(ps, i, ctx) <==> (forall p :: p in ps ==> ParentAllowed(p, i, ctx)) && Distinct(ps)
  {
    if ParentsAllowed(ps, i, ctx) {
      SortedNeighbours(ps);
    }
  }

  /** The parents pass exactly when each is allowed and none is named twice, in whatever order they came. */
  lemma ParentsPassExactly(i: Item, ctx: Context)
    ensures ParentsAllowed(SortRefs(i.parents), i, ctx) <==>
            (forall p :: p in i.parents ==> ParentAllowed(p, i, ctx)) && Distinct(i.parents)
  {
    SortSorts(i.parents);
    PermutationKeeps(SortRefs(i.parents), i.parents);
    AllowedInOrder(SortRefs(i.parents), i, ctx);
  }

  /** An item is sealed exactly when its envelope, its body and each of its parents pass, no parent is named twice and it encodes. */
  lemma SealsExactly(i: Item, ctx: Context)
    ensures Seal(i, ctx).Some? <==>
              && ctx.validScope(i.scope) && ctx.validId(i.incidentId) && ctx.validId(i.id) && 1 <= i.version
              && (i.kind == EvidenceItem || i.kind == ClaimItem)
              && i.observedAt.instant != 0 && i.observedAt.instant < i.validUntil.instant && |i.parents| <= 64
              && (exists d :: CanonicalTheorems.Accepted(i.body, ctx.width, d))
              && (forall p :: p in i.parents ==> ctx.validId(p.id) && 1 <= p.version && !(p.id == i.id && p.version == i.version))
              && (forall m, n :: 0 <= m < n < |i.parents| ==> i.parents[m] != i.parents[n])
              && (CanonicalObject(i.body, ctx.width).Some? ==>
                    ctx.encodes(Envelope(i, CanonicalObject(i.body, ctx.width).value)))
  {
    CanonicalTheorems.AcceptedExactly(i.body, ctx.width);
    ParentsPassExactly(i, ctx);
  }

  /** By id, and by version under one id. */
  predicate RefPrecedes(a: ItemRef, b: ItemRef) {
    Precedes(a.id, b.id) || (a.id == b.id && a.version < b.version)
  }

  lemma RefBelowExactly(a: ItemRef, b: ItemRef)
    ensures RefBelow(a, b) <==> RefPrecedes(a, b)
  {
    BelowExactly(a.id, b.id);
    Trichotomy(a.id, b.id);
  }

  lemma SortedAscend(ps: seq<ItemRef>)
    requires SortedRefs(ps) && Distinct(ps)
    ensures forall i, j :: 0 <= i < j < |ps| ==> RefPrecedes(ps[i], ps[j])
  {
    forall i, j | 0 <= i < j < |ps|
      ensures RefPrecedes(ps[i], ps[j])
    {
      RefsAreOrdered(ps[i], ps[j]);
      RefBelowExactly(ps[i], ps[j]);
    }
  }

  /** The hash covers the whole sealed envelope; what is sealed says the same parents and instants, in order and in UTC. */
  lemma SealedSaysTheSame(i: Item, ctx: Context, sealed: Item)
    requires Seal(i, ctx) == Some(sealed)
    ensures sealed.hash == ctx.digest(sealed.(hash := ""))
    ensures multiset(sealed.parents) == multiset(i.parents)
    ensures forall m, n :: 0 <= m < n < |sealed.parents| ==> RefPrecedes(sealed.parents[m], sealed.parents[n])
    ensures sealed.observedAt == Stamp(i.observedAt.instant, 0) && sealed.validUntil == Stamp(i.validUntil.instant, 0)
    ensures CanonicalObject(i.body, ctx.width) == Some(sealed.body)
    ensures sealed == i.(body := sealed.body, parents := sealed.parents, observedAt := sealed.observedAt,
                         validUntil := sealed.validUntil, hash := sealed.hash)
  {
    SortSorts(i.parents);
    ParentsPassExactly(i, ctx);
    PermutationKeeps(SortRefs(i.parents), i.parents);
    SortedAscend(SortRefs(i.parents));
  }

  lemma ParentsStay(ps: seq<ItemRef>)
    ensures SortRefs(SortRefs(ps)) == SortRefs(ps) && |SortRefs(ps)| == |ps|
  {
    SortIsIdempotent(ps);
    SortSorts(ps);
    assert |multiset(SortRefs(ps))| == |SortRefs(ps)|;
  }

  /** A sealed item seals to itself. */
  lemma SealIsIdempotent(i: Item, ctx: Context, sealed: Item)
    requires Seal(i, ctx) == Some(sealed) && Measures(ctx.width)
    ensures Seal(sealed, ctx) == Some(sealed)
  {
    CanonicalTheorems.CanonicalIsFixed(i.body, ctx.width, sealed.body);
    ParentsStay(i.parents);
    assert Envelope(sealed, sealed.body) == Envelope(i, sealed.body);
  }

  /** Two items that differ only in the order of parents, the order of names in the body, the zones or the claimed hash. */
  predicate Equivalent(i: Item, j: Item, d: CanonicalJson.Doc, e: CanonicalJson.Doc) {
    && i == j.(body := i.body, parents := i.parents, hash := i.hash, observedAt := i.observedAt, validUntil := i.validUntil)
    && i.observedAt.instant == j.observedAt.instant && i.validUntil.instant == j.validUntil.instant
    && multiset(i.parents) == multiset(j.parents)
    && CanonicalTheorems.IsText(i.body, d) && CanonicalTheorems.IsText(j.body, e)
    && 0 < i.body.length <= MAX_BYTES && 0 < j.body.length <= MAX_BYTES
    && CanonicalTheorems.Reordered(d, e) && CanonicalTheorems.Reordered(e, d)
  }

  /** Equivalent items seal to the same item with the same hash, or are both refused. */
  lemma EquivalentItemsSealAlike(i: Item, j: Item, d: CanonicalJson.Doc, e: CanonicalJson.Doc, ctx: Context)
    requires Equivalent(i, j, d, e)
    ensures Seal(i, ctx) == Seal(j, ctx)
  {
    CanonicalTheorems.OrderDoesNotMatter(i.body, j.body, ctx.width, d, e);
    SortIgnoresOrder(i.parents, j.parents);
    assert |multiset(i.parents)| == |i.parents| && |multiset(j.parents)| == |j.parents|;
  }

  /** The hash a caller claims is never believed. */
  lemma ClaimedHashIgnored(i: Item, ctx: Context, hash: string)
    ensures Seal(i.(hash := hash), ctx) == Seal(i, ctx)
  {
    var j := i.(hash := hash);
    match CanonicalObject(i.body, ctx.width)
    case None =>
    case Some(body) => assert Envelope(j, body) == Envelope(i, body);
  }
}
