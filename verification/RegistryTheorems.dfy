/**
 What the integration registry keeps: activation is all or nothing, every operation keeps the
 invariant, and what deactivation could not remove stays active and can be retried.
 */
module RegistryTheorems {
  import opened Wrappers
  import opened Strings
  import opened Registry

  // ---------------------------------------------------------------- activation and rollback

  /** The contents with the first `n` analyzers added. */
  function Filled(c: Contents, managed: seq<Managed>, n: nat): Contents
    requires n <= |managed|
  {
    if n == 0 then c else Filled(c, managed, n - 1)[Key(managed[n - 1].name) := Ours(managed[n - 1].id)]
  }

  predicate NewKeys(c: Contents, managed: seq<Managed>, n: nat)
    requires n <= |managed|
  {
    forall i :: 0 <= i < n ==> Key(managed[i].name) !in c
  }

  lemma {:induction false} FilledKeeps(c: Contents, managed: seq<Managed>, n: nat, k: string)
    requires n <= |managed| && NewKeys(c, managed, n) && k in c
    ensures k in Filled(c, managed, n) && Filled(c, managed, n)[k] == c[k]
  {
    if n > 0 {
      FilledKeeps(c, managed, n - 1, k);
    }
  }

  lemma {:induction false} FilledLacks(c: Contents, managed: seq<Managed>, n: nat, k: string)
    requires n <= |managed| && k !in c && forall i :: 0 <= i < n ==> Key(managed[i].name) != k
    ensures k !in Filled(c, managed, n)
  {
    if n > 0 {
      FilledLacks(c, managed, n - 1, k);
    }
  }

  lemma {:induction false} FilledHolds(c: Contents, managed: seq<Managed>, n: nat, i: nat)
    requires i < n <= |managed| && DistinctKeys(managed)
    ensures var k := Key(managed[i].name); k in Filled(c, managed, n) && Filled(c, managed, n)[k] == Ours(managed[i].id)
  {
    if i < n - 1 {
      FilledHolds(c, managed, n - 1, i);
    }
  }

  lemma FilledKeys(c: Contents, managed: seq<Managed>, n: nat)
    requires n <= |managed| && DistinctKeys(managed) && NewKeys(c, managed, n)
    ensures forall k :: k in Filled(c, managed, n) <==> k in c || exists i :: 0 <= i < n && k == Key(managed[i].name)
    ensures forall k :: k in c ==> k in Filled(c, managed, n) && Filled(c, managed, n)[k] == c[k]
    ensures forall i :: 0 <= i < n ==> Filled(c, managed, n)[Key(managed[i].name)] == Ours(managed[i].id)
  {
    forall i | 0 <= i < n
      ensures var k := Key(managed[i].name); k in Filled(c, managed, n) && Filled(c, managed, n)[k] == Ours(managed[i].id)
    {
      FilledHolds(c, managed, n, i);
    }
    forall k | k in c
      ensures k in Filled(c, managed, n) && Filled(c, managed, n)[k] == c[k]
    {
      FilledKeeps(c, managed, n, k);
    }
    forall k | k in Filled(c, managed, n) && k !in c
      ensures exists i :: 0 <= i < n && k == Key(managed[i].name)
    {
      FilledOnly(c, managed, n, k);
    }
  }

  lemma {:induction false} FilledOnly(c: Contents, managed: seq<Managed>, n: nat, k: string)
    requires n <= |managed| && k in Filled(c, managed, n) && k !in c
    ensures exists i :: 0 <= i < n && k == Key(managed[i].name)
  {
    if k != Key(managed[n - 1].name) {
      FilledOnly(c, managed, n - 1, k);
    }
  }

  /** Registration only ever adds, in order, keys that were free. */
  lemma {:induction false} RegisterFills(c: Contents, managed: seq<Managed>, i: nat, w: World)
    requires i <= |managed| && DistinctKeys(managed) && NewKeys(c, managed, i)
    ensures var r := RegisterFrom(Filled(c, managed, i), managed, i, w);
            var n := if r.Done? then |managed| else r.at;
            r.contents == Filled(c, managed, n) && NewKeys(c, managed, n)
    decreases |managed| - i
  {
    if i < |managed| && !w.ctxDone(i) && !w.registerFails(i) && Key(managed[i].name) !in Filled(c, managed, i) {
      var k := Key(managed[i].name);
      if k in c {
        FilledKeeps(c, managed, i, k);
      }
      assert NewKeys(c, managed, i + 1);
      RegisterFills(c, managed, i + 1, w);
    }
  }

  lemma AddedAndRemoved(c: Contents, k: string, owner: Owner)
    requires k !in c
    ensures c[k := owner] - {k} == c
  {
  }

  /** Rolling back what was registered restores the contents, when no unregistration fails. */
  lemma {:induction false} RollbackUndoes(c: Contents, managed: seq<Managed>, n: nat, w: World)
    requires n <= |managed| && DistinctKeys(managed) && NewKeys(c, managed, n)
    requires forall i :: 0 <= i < n ==> !w.unregisterFails(i)
    ensures Rollback(Filled(c, managed, n), managed, n, w) == c
  {
    if n > 0 {
      var k := Key(managed[n - 1].name);
      FilledLacks(c, managed, n - 1, k);
      AddedAndRemoved(Filled(c, managed, n - 1), k, Ours(managed[n - 1].id));
      RollbackUndoes(c, managed, n - 1, w);
    }
  }

  /** Whatever fails, a rollback never touches what was there before, and leaves behind only analyzers it failed to remove. */
  lemma {:induction false} RollbackKeeps(base: Contents, c: Contents, managed: seq<Managed>, n: nat, w: World)
    requires n <= |managed| && NewKeys(base, managed, n)
    requires forall k :: k in base ==> k in c && c[k] == base[k]
    ensures var r := Rollback(c, managed, n, w);
            && (forall k :: k in base ==> k in r && r[k] == base[k])
            && (forall k :: k in r ==> k in c && r[k] == c[k])
            && (forall i :: 0 <= i < n && Key(managed[i].name) in r ==>
                  exists j :: 0 <= j < n && Key(managed[j].name) == Key(managed[i].name) && w.unregisterFails(j))
  {
    if n > 0 {
      var c1 := if w.unregisterFails(n - 1) then c else c - {Key(managed[n - 1].name)};
      RollbackKeeps(base, c1, managed, n - 1, w);
      var r := Rollback(c1, managed, n - 1, w);
      forall i | 0 <= i < n && Key(managed[i].name) in r
        ensures exists j :: 0 <= j < n && Key(managed[j].name) == Key(managed[i].name) && w.unregisterFails(j)
      {
        if i == n - 1 {
          assert Key(managed[n - 1].name) in c1;
          assert w.unregisterFails(n - 1);
        } else {
          var j :| 0 <= j < n - 1 && Key(managed[j].name) == Key(managed[i].name) && w.unregisterFails(j);
        }
      }
    }
  }

  lemma WrapKeys(raw: seq<Raw>, nextId: nat)
    requires Acceptable(raw)
    ensures DistinctKeys(Wrap(raw, nextId))
  {
    forall i, j | 0 <= i < j < |raw|
      ensures Key(Wrap(raw, nextId)[i].name) != Key(Wrap(raw, nextId)[j].name)
    {
      assert Key(Wrap(raw, 0)[i].name) != Key(Wrap(raw, 0)[j].name);
    }
  }

  /**
   Activation is all or nothing: an activation that fails activates no analyzer and leaves the
   entries alone, and if the registrar's unregister works the registrars are as they were.
   */
  lemma ActivationIsAtomic(s: State, name: string, registrar: Option<nat>, raw: Option<seq<Raw>>, w: World)
    requires registrar.Some? ==> registrar.value in s.registrars
    ensures var (s', result) := Activate(s, name, registrar, raw, w);
            && (result.Err? ==> s'.live == s.live && s'.entries == s.entries)
            && (result.Err? && (forall i :: !w.unregisterFails(i)) ==> s'.registrars == s.registrars)
            && (result.Ok? ==> Key(name) in s'.entries && s'.entries[Key(name)].active.Some?
                               && Some(s'.entries[Key(name)].active.value.registrar) == registrar)
  {
    var (s', result) := Activate(s, name, registrar, raw, w);
    if s' != s && result.Err? {
      var c, managed := s.registrars[registrar.value], Wrap(raw.value, s.nextId);
      WrapKeys(raw.value, s.nextId);
      RegisterFills(c, managed, 0, w);
      var at := RegisterFrom(c, managed, 0, w).at;
      if forall i :: !w.unregisterFails(i) {
        RollbackUndoes(c, managed, at, w);
      }
    }
  }

  // ---------------------------------------------------------------- removal

  /** The failing positions from `i` on, in increasing order. */
  function Positions(n: nat, i: nat, fails: nat -> bool): seq<nat>
    requires i <= n
    decreases n - i
  {
    if i == n then [] else (if fails(i) then [i] else []) + Positions(n, i + 1, fails)
  }

  lemma {:induction false} PositionsAreThose(n: nat, i: nat, fails: nat -> bool)
    requires i <= n
    ensures var ps := Positions(n, i, fails);
            && (forall m :: 0 <= m < |ps| ==> i <= ps[m] < n && fails(ps[m]))
            && (forall m, l :: 0 <= m < l < |ps| ==> ps[m] < ps[l])
            && (forall p :: i <= p < n && fails(p) ==> p in ps)
    decreases n - i
  {
    if i < n {
      PositionsAreThose(n, i + 1, fails);
      var rest, ps := Positions(n, i + 1, fails), Positions(n, i, fails);
      assert ps == if fails(i) then [i] + rest else rest;
      forall m | 0 <= m < |ps|
        ensures i <= ps[m] < n && fails(ps[m])
      {
        if fails(i) {
          assert m == 0 || ps[m] == rest[m - 1];
        } else {
          assert ps[m] == rest[m];
        }
      }
    }
  }

  /** What is kept is exactly what failed, in order. */
  lemma {:induction false} KeptIsWhatFailed<T>(xs: seq<T>, i: nat, fails: nat -> bool)
    requires i <= |xs|
    ensures var ps, kept := Positions(|xs|, i, fails), Kept(xs, i, fails);
            |kept| == |ps| && forall m :: 0 <= m < |ps| ==> ps[m] < |xs| && kept[m] == xs[ps[m]]
    decreases |xs| - i
  {
    PositionsAreThose(|xs|, i, fails);
    if i < |xs| {
      KeptIsWhatFailed(xs, i + 1, fails);
    }
  }

  /** Removal takes exactly the keys of the names that did not fail. */
  lemma {:induction false} RemovesTheOthers(c: Contents, names: seq<string>, i: nat, fails: nat -> bool)
    requires i <= |names|
    ensures var r := RemoveFrom(c, names, i, fails);
            && (forall k :: k in r <==> k in c && forall j :: i <= j < |names| && !fails(j) ==> Key(names[j]) != k)
            && (forall k :: k in r ==> r[k] == c[k])
    decreases |names| - i
  {
    if i < |names| {
      RemovesTheOthers(if fails(i) then c else c - {Key(names[i])}, names, i + 1, fails);
    }
  }

  lemma ContainsAt(s: State, key: string, i: nat)
    requires key in s.entries && s.entries[key].active.Some? && i < |s.entries[key].active.value.analyzers|
    ensures Contains(s, key, s.entries[key].active.value.analyzers[i].id)
  {
  }

  /** Two active integrations that share a registrar own different keys. */
  lemma OwnedKeysDisjoint(s: State, k1: string, k2: string, i: nat, j: nat)
    requires Inv(s) && k1 in s.entries && k2 in s.entries && k1 != k2
    requires s.entries[k1].active.Some? && s.entries[k2].active.Some?
    requires s.entries[k1].active.value.registrar == s.entries[k2].active.value.registrar
    requires i < |s.entries[k1].active.value.names| && j < |s.entries[k2].active.value.names|
    ensures Key(s.entries[k1].active.value.names[i]) != Key(s.entries[k2].active.value.names[j])
  {
    assert EntryAligned(s, k1) && EntryAligned(s, k2) && Owned(s, k1) && Owned(s, k2);
    ContainsAt(s, k1, i);
    ContainsAt(s, k2, j);
  }

  // ---------------------------------------------------------------- sweeping keeps the invariant

  lemma SweepKeepsOther(s: State, key: string, fails: nat -> bool, k: string)
    requires Inv(s) && key in s.entries && s.entries[key].active.Some? && k in s.entries && k != key
    ensures var s' := Sweep(s, key, fails); k in s'.entries && EntryAligned(s', k) && Owned(s', k)
  {
    assert EntryAligned(s, key) && EntryAligned(s, k) && Owned(s, k);
    var a := s.entries[key].active.value;
    RemovesTheOthers(s.registrars[a.registrar], a.names, 0, fails);
    if s.entries[k].active.Some? && s.entries[k].active.value.registrar == a.registrar {
      var b := s.entries[k].active.value;
      forall i | 0 <= i < |b.names|
        ensures Key(b.names[i]) in RemoveFrom(s.registrars[a.registrar], a.names, 0, fails)
      {
        forall j | 0 <= j < |a.names|
          ensures Key(a.names[j]) != Key(b.names[i])
        {
          OwnedKeysDisjoint(s, key, k, j, i);
        }
      }
    }
  }

  lemma KeptDistinct(managed: seq<Managed>, fails: nat -> bool)
    requires DistinctKeys(managed) && DistinctIds(managed)
    ensures DistinctKeys(Kept(managed, 0, fails)) && DistinctIds(Kept(managed, 0, fails))
  {
    KeptIsWhatFailed(managed, 0, fails);
    PositionsAreThose(|managed|, 0, fails);
  }

  /** A kept analyzer is still held under its name: the names that were removed have other keys. */
  lemma KeptIsStillHeld(c: Contents, managed: seq<Managed>, fails: nat -> bool, m: nat)
    requires DistinctKeys(managed) && m < |Kept(managed, 0, fails)|
    requires forall i :: 0 <= i < |managed| ==> Key(managed[i].name) in c && c[Key(managed[i].name)] == Ours(managed[i].id)
    ensures var x, c' := Kept(managed, 0, fails)[m], RemoveFrom(c, Names(managed), 0, fails);
            x in managed && Key(x.name) in c' && c'[Key(x.name)] == Ours(x.id)
  {
    KeptIsWhatFailed(managed, 0, fails);
    PositionsAreThose(|managed|, 0, fails);
    RemovesTheOthers(c, Names(managed), 0, fails);
    var p := Positions(|managed|, 0, fails)[m];
    forall j | 0 <= j < |managed| && !fails(j)
      ensures Key(Names(managed)[j]) != Key(managed[p].name)
    {
    }
  }

  lemma SweepKeepsOwn(s: State, key: string, fails: nat -> bool)
    requires Inv(s) && key in s.entries && s.entries[key].active.Some?
    ensures var s' := Sweep(s, key, fails); key in s'.entries && EntryAligned(s', key) && Owned(s', key)
  {
    assert EntryAligned(s, key) && Owned(s, key);
    var a := s.entries[key].active.value;
    KeptNames(a.analyzers, 0, fails);
    SweepAligned(s, key, fails);
    assert EntryAligned(Sweep(s, key, fails), key);
    KeptDistinct(a.analyzers, fails);
    forall m | 0 <= m < |Kept(a.analyzers, 0, fails)|
      ensures var x, c' := Kept(a.analyzers, 0, fails)[m], RemoveFrom(s.registrars[a.registrar], a.names, 0, fails);
              x in a.analyzers && Key(x.name) in c' && c'[Key(x.name)] == Ours(x.id)
    {
      KeptIsStillHeld(s.registrars[a.registrar], a.analyzers, fails, m);
    }
  }

  /** After a sweep an activation contains exactly the kept analyzers. */
  lemma SweepContains(s: State, key: string, fails: nat -> bool, k: string, id: nat)
    requires Inv(s) && key in s.entries && s.entries[key].active.Some?
    ensures Contains(Sweep(s, key, fails), k, id) <==>
              if k == key then id in Ids(Kept(s.entries[key].active.value.analyzers, 0, fails)) else Contains(s, k, id)
    ensures Contains(Sweep(s, key, fails), k, id) ==> Contains(s, k, id)
  {
    assert EntryAligned(s, key);
    var a := s.entries[key].active.value;
    KeptNames(a.analyzers, 0, fails);
    KeptIsWhatFailed(a.analyzers, 0, fails);
    var kept := Kept(a.analyzers, 0, fails);
    assert forall m :: m in kept ==> m in a.analyzers;
  }

  lemma SweepKeepsInv(s: State, key: string, fails: nat -> bool)
    requires Inv(s) && key in s.entries && s.entries[key].active.Some?
    ensures Inv(Sweep(s, key, fails))
  {
    var s' := Sweep(s, key, fails);
    var a := s.entries[key].active.value;
    forall k | k in s'.entries
      ensures EntryAligned(s', k) && Owned(s', k) && k == Key(s'.entries[k].name)
    {
      if k == key {
        SweepKeepsOwn(s, key, fails);
      } else {
        SweepKeepsOther(s, key, fails, k);
      }
    }
    forall k1, k2, id | Contains(s', k1, id) && Contains(s', k2, id)
      ensures k1 == k2
    {
      SweepContains(s, key, fails, k1, id);
      SweepContains(s, key, fails, k2, id);
    }
    forall id
      ensures id in s'.live <==> exists k :: Contains(s', k, id)
    {
      SweepLive(s, key, fails, id);
    }
  }

  lemma SweepLive(s: State, key: string, fails: nat -> bool, id: nat)
    requires Inv(s) && key in s.entries && s.entries[key].active.Some?
    ensures var s' := Sweep(s, key, fails); id in s'.live <==> exists k :: Contains(s', k, id)
  {
    var s' := Sweep(s, key, fails);
    SweepContains(s, key, fails, key, id);
    if id in s'.live && !Contains(s', key, id) {
      var k :| Contains(s, k, id);
      SweepContains(s, key, fails, k, id);
    }
    if k :| Contains(s', k, id) {
      SweepContains(s, key, fails, k, id);
      if k != key {
        NotBoth(s, key, k, id);
      }
    }
  }

  lemma NotBoth(s: State, key: string, k: string, id: nat)
    requires Apart(s) && LiveIsOwned(s) && k != key && Contains(s, k, id)
    ensures !Contains(s, key, id) && id in s.live
  {
  }

  // ---------------------------------------------------------------- the other operations

  lemma RegisterKeepsInv(s: State, f: Factory)
    requires Inv(s)
    ensures Inv(Register(s, f).0)
  {
    var s' := Register(s, f).0;
    SameActivations(s, s');
  }

  lemma UnregisterKeepsInv(s: State, name: string)
    requires Inv(s)
    ensures Inv(Unregister(s, name).0)
  {
    var s' := Unregister(s, name).0;
    SameActivations(s, s');
  }

  /** Adding or dropping inactive entries, and changes of registrars that keep what is ours, keep the invariant. */
  lemma SameActivations(s: State, s': State)
    requires Inv(s) && s'.live == s.live && s.nextId <= s'.nextId
    requires forall r :: r in s.registrars ==>
               r in s'.registrars && forall k :: k in s.registrars[r] && s.registrars[r][k].Ours? ==>
                 k in s'.registrars[r] && s'.registrars[r][k] == s.registrars[r][k]
    requires forall k :: k in s.entries && s.entries[k].active.Some? ==> k in s'.entries && s'.entries[k] == s.entries[k]
    requires forall k :: k in s'.entries ==>
               k == Key(s'.entries[k].name) && (s'.entries[k].active.Some? ==> k in s.entries && s'.entries[k] == s.entries[k])
    ensures Inv(s')
  {
    forall k | k in s'.entries
      ensures EntryAligned(s', k) && Owned(s', k)
    {
      if s'.entries[k].active.Some? {
        assert EntryAligned(s, k) && Owned(s, k);
      }
    }
    forall k, id
      ensures Contains(s', k, id) <==> Contains(s, k, id)
    {
    }
  }

  lemma FailedActivationKeepsInv(s: State, name: string, registrar: nat, raw: seq<Raw>, w: World)
    requires Inv(s) && registrar in s.registrars && Acceptable(raw)
    requires Key(name) in s.entries && s.entries[Key(name)].active.None? && Key(name) != ""
    requires RegisterFrom(s.registrars[registrar], Wrap(raw, s.nextId), 0, w).Stopped?
    ensures Inv(Activate(s, name, Some(registrar), Some(raw), w).0)
  {
    var c, managed := s.registrars[registrar], Wrap(raw, s.nextId);
    WrapKeys(raw, s.nextId);
    RegisterFills(c, managed, 0, w);
    var at := RegisterFrom(c, managed, 0, w).at;
    FilledKeys(c, managed, at);
    RollbackKeeps(c, Filled(c, managed, at), managed, at, w);
    SameActivations(s, Activate(s, name, Some(registrar), Some(raw), w).0);
  }

  lemma WrapIds(raw: seq<Raw>, nextId: nat, id: nat)
    ensures id in Ids(Wrap(raw, nextId)) ==> nextId <= id < nextId + |raw|
  {
    var managed := Wrap(raw, nextId);
    if id in Ids(managed) {
      var m :| m in managed && m.id == id;
      var i :| 0 <= i < |managed| && managed[i] == m;
    }
  }

  /** The identities in the activations are all below the next one. */
  lemma OwnedIds(s: State, k: string, id: nat)
    requires Inv(s) && Contains(s, k, id)
    ensures id < s.nextId
  {
    var a := s.entries[k].active.value;
    assert EntryAligned(s, k) && Owned(s, k);
    var m :| m in a.analyzers && m.id == id;
    var i :| 0 <= i < |a.analyzers| && a.analyzers[i] == m;
  }

  /** The state after every analyzer of an activation was registered. */
  ghost predicate Activated(s: State, s': State, key: string, registrar: nat, managed: seq<Managed>) {
    && key in s.entries && s.entries[key].active.None? && registrar in s.registrars
    && managed != [] && DistinctKeys(managed) && DistinctIds(managed) && NewKeys(s.registrars[registrar], managed, |managed|)
    && s'.nextId == s.nextId + |managed|
    && s'.registrars == s.registrars[registrar := Filled(s.registrars[registrar], managed, |managed|)]
    && s'.live == s.live + Ids(managed)
    && s'.entries == s.entries[key := s.entries[key].(active := Some(Activation(registrar, managed, Names(managed))))]
    && (forall id :: id in Ids(managed) ==> s.nextId <= id)
    && (forall i :: 0 <= i < |managed| ==> managed[i].id < s'.nextId)
  }

  lemma ActivatedContains(s: State, s': State, key: string, registrar: nat, managed: seq<Managed>, k: string, id: nat)
    requires Inv(s) && Activated(s, s', key, registrar, managed)
    ensures Contains(s', k, id) <==> if k == key then id in Ids(managed) else Contains(s, k, id)
  {
  }

  lemma ActivatedOwns(s: State, s': State, key: string, registrar: nat, managed: seq<Managed>, k: string)
    requires Inv(s) && Activated(s, s', key, registrar, managed) && k in s'.entries
    ensures EntryAligned(s', k) && Owned(s', k)
  {
    FilledKeys(s.registrars[registrar], managed, |managed|);
    if k != key {
      assert EntryAligned(s, k) && Owned(s, k);
    }
  }

  lemma ActivatedKeepsInv(s: State, s': State, key: string, registrar: nat, managed: seq<Managed>)
    requires Inv(s) && Activated(s, s', key, registrar, managed)
    ensures Inv(s')
  {
    forall k | k in s'.entries
      ensures EntryAligned(s', k) && Owned(s', k) && k == Key(s'.entries[k].name)
    {
      ActivatedOwns(s, s', key, registrar, managed, k);
    }
    forall k1, k2, id | Contains(s', k1, id) && Contains(s', k2, id)
      ensures k1 == k2
    {
      ActivatedContains(s, s', key, registrar, managed, k1, id);
      ActivatedContains(s, s', key, registrar, managed, k2, id);
      if k1 != key && Contains(s, k1, id) {
        OwnedIds(s, k1, id);
      }
      if k2 != key && Contains(s, k2, id) {
        OwnedIds(s, k2, id);
      }
    }
    forall id
      ensures id in s'.live <==> exists k :: Contains(s', k, id)
    {
      ActivatedLive(s, s', key, registrar, managed, id);
    }
  }

  lemma ActivatedLive(s: State, s': State, key: string, registrar: nat, managed: seq<Managed>, id: nat)
    requires Inv(s) && Activated(s, s', key, registrar, managed)
    ensures id in s'.live <==> exists k :: Contains(s', k, id)
  {
    ActivatedContains(s, s', key, registrar, managed, key, id);
    if id in s.live {
      var k :| Contains(s, k, id);
      ActivatedContains(s, s', key, registrar, managed, k, id);
    }
    if k :| Contains(s', k, id) {
      ActivatedContains(s, s', key, registrar, managed, k, id);
    }
  }

  lemma ActivateKeepsInv(s: State, name: string, registrar: Option<nat>, raw: Option<seq<Raw>>, w: World)
    requires Inv(s) && (registrar.Some? ==> registrar.value in s.registrars)
    ensures Inv(Activate(s, name, registrar, raw, w).0)
  {
    var s' := Activate(s, name, registrar, raw, w).0;
    if s' != s {
      var c, managed := s.registrars[registrar.value], Wrap(raw.value, s.nextId);
      WrapKeys(raw.value, s.nextId);
      RegisterFills(c, managed, 0, w);
      if RegisterFrom(c, managed, 0, w).Stopped? {
        FailedActivationKeepsInv(s, name, registrar.value, raw.value, w);
      } else {
        forall id | id in Ids(managed)
          ensures s.nextId <= id
        {
          WrapIds(raw.value, s.nextId, id);
        }
        ActivatedKeepsInv(s, s', Key(name), registrar.value, managed);
      }
    }
  }

  lemma DeactivateKeepsInv(s: State, name: string, registrar: Option<nat>, fails: nat -> bool, closeFails: bool)
    requires Inv(s) && (registrar.Some? ==> registrar.value in s.registrars)
    ensures Inv(Deactivate(s, name, registrar, fails, closeFails).0)
  {
    if Deactivate(s, name, registrar, fails, closeFails).0 != s {
      SweepKeepsInv(s, Key(name), fails);
    }
  }

  /** The integration is active on this registrar. */
  predicate ActiveOn(s: State, key: string, registrar: nat) {
    && key != "" && key in s.entries && s.entries[key].active.Some? && s.entries[key].active.value.registrar == registrar
    && registrar in s.registrars
  }

  lemma {:induction false} SweepAllKeepsInv(s: State, keys: seq<string>, fails: string -> nat -> bool)
    requires Inv(s)
    ensures Inv(SweepAll(s, keys, fails))
    decreases keys
  {
    if keys != [] {
      var key := keys[0];
      if key in s.entries && s.entries[key].active.Some? {
        SweepKeepsInv(s, key, fails(key));
        SweepAllKeepsInv(Sweep(s, key, fails(key)), keys[1..], fails);
      } else {
        SweepAllKeepsInv(s, keys[1..], fails);
      }
    }
  }

  /** Registering only adds inactive entries. */
  lemma {:induction false} RegisterAllAdds(s: State, names: seq<Factory>)
    ensures var s' := RegisterAll(s, names);
            && s'.live == s.live && s'.nextId == s.nextId && s'.registrars == s.registrars
            && (forall k :: k in s.entries ==> k in s'.entries && s'.entries[k] == s.entries[k])
            && (forall k :: k in s'.entries && k !in s.entries ==> s'.entries[k].active.None?)
    decreases names
  {
    if names != [] {
      RegisterAllAdds(Register(s, names[0]).0, names[1..]);
    }
  }

  lemma CloseKeepsInv(s: State, order: seq<string>, fails: string -> nat -> bool, arrivals: seq<Factory>)
    requires Inv(s)
    ensures Inv(Close(s, order, fails, arrivals))
  {
    var swept := SweepAll(s, order, fails);
    SweepAllKeepsInv(s, order, fails);
    RegisterAllAdds(swept, arrivals);
    SameActivations(swept, Close(s, order, fails, arrivals));
  }

  // ---------------------------------------------------------------- every reachable state

  datatype Call =
    | RegisterCall(factory: Factory)
    | UnregisterCall(name: string)
    | ActivateCall(name: string, registrar: Option<nat>, raw: Option<seq<Raw>>, world: World)
    | DeactivateCall(name: string, registrar: Option<nat>, fails: nat -> bool, closeFails: bool)
    | CloseCall(order: seq<string>, failures: string -> nat -> bool, arrivals: seq<Factory>)
    | OthersAdd(r: nat, k: string, tag: nat)
    | OthersRemove(r: nat, k: string)

  /** A registrar that is passed in exists; others add under free keys and remove what is theirs. */
  predicate Callable(s: State, call: Call) {
    match call
    case ActivateCall(_, registrar, _, _) => registrar.Some? ==> registrar.value in s.registrars
    case DeactivateCall(_, registrar, _, _) => registrar.Some? ==> registrar.value in s.registrars
    case OthersAdd(r, k, _) => r in s.registrars && k !in s.registrars[r]
    case OthersRemove(r, k) => r in s.registrars && k in s.registrars[r] && s.registrars[r][k].Foreign?
    case _ => true
  }

  function After(s: State, call: Call): State
    requires Callable(s, call) && Aligned(s)
  {
    match call
    case RegisterCall(name) => Register(s, name).0
    case UnregisterCall(name) => Unregister(s, name).0
    case ActivateCall(name, registrar, raw, world) => Activate(s, name, registrar, raw, world).0
    case DeactivateCall(name, registrar, fails, closeFails) => Deactivate(s, name, registrar, fails, closeFails).0
    case CloseCall(order, failures, arrivals) => Close(s, order, failures, arrivals)
    case OthersAdd(r, k, tag) => s.(registrars := s.registrars[r := s.registrars[r][k := Foreign(tag)]])
    case OthersRemove(r, k) => s.(registrars := s.registrars[r := s.registrars[r] - {k}])
  }

  predicate Empty(s: State) {
    s.entries == map[] && s.live == {}
  }

  /** A run starts from an empty registry over registrars with any contents. */
  ghost predicate IsRun(run: seq<State>, calls: seq<Call>) {
    && |run| == |calls| + 1
    && Empty(run[0])
    && forall i :: 0 <= i < |calls| ==>
         Callable(run[i], calls[i]) && Aligned(run[i]) && run[i + 1] == After(run[i], calls[i])
  }

  lemma CallKeepsInv(s: State, call: Call)
    requires Inv(s) && Callable(s, call)
    ensures Inv(After(s, call))
  {
    match call {
      case RegisterCall(name) => RegisterKeepsInv(s, name);
      case UnregisterCall(name) => UnregisterKeepsInv(s, name);
      case ActivateCall(name, registrar, raw, world) => ActivateKeepsInv(s, name, registrar, raw, world);
      case DeactivateCall(name, registrar, fails, closeFails) => DeactivateKeepsInv(s, name, registrar, fails, closeFails);
      case CloseCall(order, failures, arrivals) => CloseKeepsInv(s, order, failures, arrivals);
      case OthersAdd(_, _, _) => SameActivations(s, After(s, call));
      case OthersRemove(_, _) => SameActivations(s, After(s, call));
    }
  }

  /**
   In every reachable state names and analyzers are aligned, every owned name is held by its
   registrar, no analyzer is shared, and an analyzer is active exactly when a registered
   integration's activation contains it, so no active integration is ever lost.
   */
  lemma {:induction false} RunKeepsInv(run: seq<State>, calls: seq<Call>, i: nat)
    requires IsRun(run, calls) && i < |run|
    ensures Inv(run[i])
  {
    if i > 0 {
      RunKeepsInv(run, calls, i - 1);
      assert run[i - 1 + 1] == After(run[i - 1], calls[i - 1]);
      CallKeepsInv(run[i - 1], calls[i - 1]);
    }
  }

  // ---------------------------------------------------------------- retry and close

  lemma KeptNone<T>(xs: seq<T>, i: nat, fails: nat -> bool)
    requires i <= |xs| && forall j :: i <= j < |xs| ==> !fails(j)
    ensures Kept(xs, i, fails) == []
    decreases |xs| - i
  {
    if i < |xs| {
      KeptNone(xs, i + 1, fails);
    }
  }

  predicate Never(fails: nat -> bool, n: nat) {
    forall i :: 0 <= i < n ==> !fails(i)
  }

  /** Some element with the property does not fail. */
  predicate Takes<T>(xs: seq<T>, fails: nat -> bool, p: T -> bool) {
    exists j :: 0 <= j < |xs| && !fails(j) && p(xs[j])
  }

  lemma RemoveTakes(c: Contents, names: seq<string>, fails: nat -> bool, k: string)
    ensures k in RemoveFrom(c, names, 0, fails) <==> k in c && !Takes(names, fails, n => Key(n) == k)
    ensures k in RemoveFrom(c, names, 0, fails) ==> RemoveFrom(c, names, 0, fails)[k] == c[k]
  {
    RemovesTheOthers(c, names, 0, fails);
  }

  lemma LeftoversAreTaken<T>(xs: seq<T>, fails: nat -> bool, clean: nat -> bool, p: T -> bool)
    requires Never(clean, |xs|) && Takes(xs, clean, p)
    ensures Takes(xs, fails, p) || Takes(Kept(xs, 0, fails), clean, p)
  {
    KeptIsWhatFailed(xs, 0, fails);
    PositionsAreThose(|xs|, 0, fails);
    PositionsBound(|xs|, 0, fails);
    var ps := Positions(|xs|, 0, fails);
    var j :| 0 <= j < |xs| && !clean(j) && p(xs[j]);
    if fails(j) {
      var m :| 0 <= m < |ps| && ps[m] == j;
      assert Kept(xs, 0, fails)[m] == xs[j] && !clean(m);
    }
  }

  lemma TakenWereThere<T>(xs: seq<T>, fails: nat -> bool, clean: nat -> bool, p: T -> bool)
    requires Never(clean, |xs|) && (Takes(xs, fails, p) || Takes(Kept(xs, 0, fails), clean, p))
    ensures Takes(xs, clean, p)
  {
    KeptIsWhatFailed(xs, 0, fails);
    PositionsAreThose(|xs|, 0, fails);
    var ps := Positions(|xs|, 0, fails);
    if m :| 0 <= m < |Kept(xs, 0, fails)| && p(Kept(xs, 0, fails)[m]) {
      assert Kept(xs, 0, fails)[m] == xs[ps[m]] && !clean(ps[m]);
    }
  }

  /** Removing the leftovers of a partial removal is the same as removing everything at once. */
  lemma RemovesInTwoGoes(c: Contents, names: seq<string>, fails: nat -> bool, clean: nat -> bool)
    requires Never(clean, |names|)
    ensures RemoveFrom(RemoveFrom(c, names, 0, fails), Kept(names, 0, fails), 0, clean) == RemoveFrom(c, names, 0, clean)
  {
    var c1, left := RemoveFrom(c, names, 0, fails), Kept(names, 0, fails);
    var c2, once := RemoveFrom(c1, left, 0, clean), RemoveFrom(c, names, 0, clean);
    forall k
      ensures (k in c2 <==> k in once) && (k in c2 ==> c2[k] == once[k])
    {
      RemoveTakes(c, names, fails, k);
      RemoveTakes(c1, left, clean, k);
      RemoveTakes(c, names, clean, k);
      var p := (n: string) => Key(n) == k;
      if Takes(names, clean, p) {
        LeftoversAreTaken(names, fails, clean, p);
      } else if Takes(names, fails, p) || Takes(left, clean, p) {
        TakenWereThere(names, fails, clean, p);
      }
    }
  }

  lemma KeptIds(managed: seq<Managed>, fails: nat -> bool)
    ensures Ids(Kept(managed, 0, fails)) <= Ids(managed)
  {
    KeptIsWhatFailed(managed, 0, fails);
    var kept := Kept(managed, 0, fails);
    assert forall m :: m in kept ==> m in managed;
  }

  /** A sweep that meets no failure empties the activation. */
  lemma CleanSweep(s: State, key: string, clean: nat -> bool)
    requires Aligned(s) && key in s.entries && s.entries[key].active.Some?
    requires Never(clean, |s.entries[key].active.value.names|)
    ensures var a, s' := s.entries[key].active.value, Sweep(s, key, clean);
            && s'.entries == s.entries[key := s.entries[key].(active := None)]
            && s'.live == s.live - Ids(a.analyzers)
  {
    var a := s.entries[key].active.value;
    assert EntryAligned(s, key);
    KeptNone(a.names, 0, clean);
    KeptNone(a.analyzers, 0, clean);
  }

  lemma SweepTwice(s: State, key: string, fails: nat -> bool, clean: nat -> bool)
    requires Inv(s) && key in s.entries && s.entries[key].active.Some?
    requires Never(clean, |s.entries[key].active.value.names|)
    ensures var once, partial := Sweep(s, key, clean), Sweep(s, key, fails);
            && once.entries[key].active == None
            && Aligned(partial)
            && (if partial.entries[key].active.Some? then Sweep(partial, key, clean) == once else partial == once)
  {
    var a := s.entries[key].active.value;
    assert EntryAligned(s, key);
    SweepAligned(s, key, fails);
    CleanSweep(s, key, clean);
    KeptNames(a.analyzers, 0, fails);
    KeptIds(a.analyzers, fails);
    KeptIsWhatFailed(a.names, 0, fails);
    PositionsBound(|a.names|, 0, fails);
    RemovesInTwoGoes(s.registrars[a.registrar], a.names, fails, clean);
    var partial := Sweep(s, key, fails);
    if partial.entries[key].active.Some? {
      CleanSweep(partial, key, clean);
      RetryState(s, key, fails, clean);
    } else {
      assert Kept(a.analyzers, 0, fails) == [];
    }
  }

  /**
   Retry converges: a deactivation that failed in part, retried against a registrar that works,
   ends in the very state of a deactivation that worked at once.
   */
  lemma RetryConverges(s: State, name: string, registrar: nat, fails: nat -> bool, clean: nat -> bool, failing: bool, closing: bool)
    requires Inv(s) && ActiveOn(s, Key(name), registrar)
    requires Never(clean, |s.entries[Key(name)].active.value.names|)
    ensures var once, partial := Deactivate(s, name, Some(registrar), clean, closing), Deactivate(s, name, Some(registrar), fails, failing);
            && Aligned(partial.0) && registrar in partial.0.registrars
            && var again := Deactivate(partial.0, name, Some(registrar), clean, closing);
               && again.0 == once.0 && once.0.entries[Key(name)].active == None
               && (again.1.Ok? <==> !closing || partial.0.entries[Key(name)].active.None?)
  {
    var key := Key(name);
    assert EntryAligned(s, key);
    SweepTwice(s, key, fails, clean);
    var partial := Sweep(s, key, fails);
    if partial.entries[key].active.Some? {
      assert Sweep(partial, key, clean).entries[key].active == None;
    }
  }

  lemma RetryState(s: State, key: string, fails: nat -> bool, clean: nat -> bool)
    requires Aligned(s) && key in s.entries && s.entries[key].active.Some?
    requires Aligned(Sweep(s, key, fails)) && Sweep(s, key, fails).entries[key].active.Some?
    requires Never(clean, |s.entries[key].active.value.names|)
    requires var partial := Sweep(s, key, fails);
             var p := Sweep(partial, key, clean);
             && p.entries == partial.entries[key := partial.entries[key].(active := None)]
             && p.live == partial.live - Ids(partial.entries[key].active.value.analyzers)
    requires var once := Sweep(s, key, clean);
             && once.entries == s.entries[key := s.entries[key].(active := None)]
             && once.live == s.live - Ids(s.entries[key].active.value.analyzers)
    ensures Sweep(Sweep(s, key, fails), key, clean) == Sweep(s, key, clean)
  {
    var a := s.entries[key].active.value;
    var kept := Kept(a.analyzers, 0, fails);
    KeptIds(a.analyzers, fails);
    RemovesInTwoGoes(s.registrars[a.registrar], a.names, fails, clean);
    var twice, once := Sweep(Sweep(s, key, fails), key, clean), Sweep(s, key, clean);
    assert twice.live == once.live;
    assert twice.entries == once.entries;
    assert twice.registrars == once.registrars;
  }

  lemma PositionsBound(n: nat, i: nat, fails: nat -> bool)
    requires i <= n
    ensures |Positions(n, i, fails)| <= n - i
    decreases n - i
  {
    if i < n {
      PositionsBound(n, i + 1, fails);
    }
  }

  /** What an entry becomes when it is swept. */
  function Swept(e: Entry, fails: nat -> bool): Entry
    requires e.active.Some? ==> |e.active.value.names| == |e.active.value.analyzers|
  {
    if e.active.Some? then e.(active := Remaining(e.active.value, fails)) else e
  }

  lemma {:induction false} SweepAllEntry(s: State, keys: seq<string>, fails: string -> nat -> bool, k: string)
    requires Aligned(s) && k in s.entries
    requires forall i, j :: 0 <= i < j < |keys| ==> keys[i] != keys[j]
    ensures var s' := SweepAll(s, keys, fails);
            EntryAligned(s, k) && k in s'.entries && s'.entries[k] == if k in keys then Swept(s.entries[k], fails(k)) else s.entries[k]
    decreases keys
  {
    assert EntryAligned(s, k);
    if keys != [] {
      var key, rest := keys[0], keys[1..];
      assert key !in rest;
      var s1 := s;
      if key in s.entries && s.entries[key].active.Some? {
        SweepAligned(s, key, fails(key));
        s1 := Sweep(s, key, fails(key));
      }
      SweepAllEntry(s1, rest, fails, k);
    }
  }

  lemma {:induction false} SweepAllKeys(s: State, keys: seq<string>, fails: string -> nat -> bool)
    requires Aligned(s)
    ensures SweepAll(s, keys, fails).entries.Keys == s.entries.Keys
    decreases keys
  {
    if keys != [] {
      var key := keys[0];
      if key in s.entries && s.entries[key].active.Some? {
        SweepAligned(s, key, fails(key));
        SweepAllKeys(Sweep(s, key, fails(key)), keys[1..], fails);
      } else {
        SweepAllKeys(s, keys[1..], fails);
      }
    }
  }

  /**
   Close keeps exactly the integrations with an analyzer that could not be removed, each with
   exactly those analyzers, whatever is registered meanwhile.
   */
  lemma CloseKeepsWhatFailed(s: State, order: seq<string>, fails: string -> nat -> bool, arrivals: seq<Factory>, k: string)
    requires Inv(s) && (forall i, j :: 0 <= i < j < |order| ==> order[i] != order[j])
    requires forall key :: key in s.entries ==> key in order
    ensures var s' := Close(s, order, fails, arrivals);
            && (k in s'.entries ==> k in s.entries)
            && (k in s.entries ==>
                  EntryAligned(s, k) &&
                  var e := Swept(s.entries[k], fails(k));
                  (k in s'.entries <==> e.active.Some?) && (k in s'.entries ==> s'.entries[k] == e))
  {
    SweepAllKeys(s, order, fails);
    if k in s.entries {
      SweepAllEntry(s, order, fails, k);
    }
  }

  lemma NoPositions(n: nat, fails: nat -> bool)
    ensures Positions(n, 0, fails) == [] <==> forall i :: 0 <= i < n ==> !fails(i)
  {
    PositionsAreThose(n, 0, fails);
    var ps := Positions(n, 0, fails);
    if ps != [] {
      assert ps[0] in ps;
    }
  }

  /**
   An integration that is registered when Close replaces the entries survives exactly if it was already there
   and active when Close began and one of its analyzers could not be removed.
   */
  lemma SurvivesCloseExactly(s: State, order: seq<string>, fails: string -> nat -> bool, arrivals: seq<Factory>, k: string)
    requires Inv(s) && (forall i, j :: 0 <= i < j < |order| ==> order[i] != order[j])
    requires forall key :: key in s.entries ==> key in order
    requires k in RegisterAll(SweepAll(s, order, fails), arrivals).entries
    ensures k in Close(s, order, fails, arrivals).entries <==>
              k in s.entries && s.entries[k].active.Some? && exists i :: 0 <= i < |s.entries[k].active.value.names| && fails(k)(i)
  {
    CloseKeepsWhatFailed(s, order, fails, arrivals, k);
    if k in s.entries && s.entries[k].active.Some? {
      var names := s.entries[k].active.value.names;
      KeptIsWhatFailed(names, 0, fails(k));
      NoPositions(|names|, fails(k));
      assert EntryAligned(s, k);
      assert Kept(names, 0, fails(k)) == [] <==> Positions(|names|, 0, fails(k)) == [];
    }
  }

  /** So every Register that succeeds while a Close is under way is lost with it. */
  lemma ArrivalIsLost(s: State, order: seq<string>, fails: string -> nat -> bool, arrivals: seq<Factory>, i: nat)
    requires Aligned(s) && i < |arrivals|
    requires Register(RegisterAll(SweepAll(s, order, fails), arrivals[..i]), arrivals[i]).1.Ok?
    ensures arrivals[i].Described? && Key(arrivals[i].name) !in Close(s, order, fails, arrivals).entries
  {
    RegisterAllAdds(SweepAll(s, order, fails), arrivals[..i]);
  }

  /** There is such a Register. */
  lemma RegisterMayBeLost(s: State, name: string, fails: string -> nat -> bool)
    requires s.entries == map[]
    ensures Register(SweepAll(s, [], fails), Described(name)).1 == Ok(()) && Close(s, [], fails, [Described(name)]).entries == map[]
  {
    var arrivals := [Described(name)];
    assert arrivals[..0] == [];
    ArrivalIsLost(s, [], fails, arrivals, 0);
  }

  /** Sweeping this integration takes this name from the registrar. */
  predicate TakesName(s: State, key: string, fails: nat -> bool, r: nat, k: string) {
    && key in s.entries && s.entries[key].active.Some? && s.entries[key].active.value.registrar == r
    && var names := s.entries[key].active.value.names;
       exists j :: 0 <= j < |names| && !fails(j) && Key(names[j]) == k
  }

  lemma SweepTakesName(s: State, key: string, fails: nat -> bool, r: nat, k: string)
    requires Aligned(s) && key in s.entries && s.entries[key].active.Some? && EntryAligned(s, key) && r in s.registrars
    ensures var s' := Sweep(s, key, fails);
            && r in s'.registrars
            && (k in s'.registrars[r] <==> k in s.registrars[r] && !TakesName(s, key, fails, r, k))
            && (k in s'.registrars[r] ==> s'.registrars[r][k] == s.registrars[r][k])
  {
    var a := s.entries[key].active.value;
    if a.registrar == r {
      RemovesTheOthers(s.registrars[r], a.names, 0, fails);
    }
  }

  lemma {:induction false} SweepAllTakesName(s: State, keys: seq<string>, fails: string -> nat -> bool, r: nat, k: string)
    requires Aligned(s) && r in s.registrars && forall i, j :: 0 <= i < j < |keys| ==> keys[i] != keys[j]
    ensures var s' := SweepAll(s, keys, fails);
            && r in s'.registrars
            && (k in s'.registrars[r] <==> k in s.registrars[r] && forall key :: key in keys ==> !TakesName(s, key, fails(key), r, k))
            && (k in s'.registrars[r] ==> s'.registrars[r][k] == s.registrars[r][k])
    decreases keys
  {
    if keys != [] {
      var key, rest := keys[0], keys[1..];
      assert key !in rest && (forall x :: x in keys <==> x == key || x in rest);
      if key in s.entries && s.entries[key].active.Some? {
        assert EntryAligned(s, key);
        SweepTakesName(s, key, fails(key), r, k);
        SweepAligned(s, key, fails(key));
        var s1 := Sweep(s, key, fails(key));
        assert forall x :: x in rest ==> (TakesName(s1, x, fails(x), r, k) <==> TakesName(s, x, fails(x), r, k));
        SweepAllTakesName(s1, rest, fails, r, k);
      } else {
        SweepAllTakesName(s, rest, fails, r, k);
      }
    }
  }

  /** Close takes from each registrar exactly the owned names whose removal did not fail, and nothing of anybody else. */
  lemma CloseTakesExactly(s: State, order: seq<string>, fails: string -> nat -> bool, arrivals: seq<Factory>, r: nat, k: string)
    requires Aligned(s) && (forall i, j :: 0 <= i < j < |order| ==> order[i] != order[j]) && r in s.registrars
    requires forall key :: key in s.entries ==> key in order
    ensures var s' := Close(s, order, fails, arrivals);
            && r in s'.registrars
            && (k in s'.registrars[r] <==> k in s.registrars[r] && forall key :: key in s.entries ==> !TakesName(s, key, fails(key), r, k))
            && (k in s'.registrars[r] ==> s'.registrars[r][k] == s.registrars[r][k])
  {
    SweepAllTakesName(s, order, fails, r, k);
    RegisterAllAdds(SweepAll(s, order, fails), arrivals);
  }

  /** The name belongs to an activation on this registrar. */
  predicate OwnsName(s: State, key: string, r: nat, k: string) {
    && key in s.entries && s.entries[key].active.Some? && s.entries[key].active.value.registrar == r
    && var names := s.entries[key].active.value.names; exists j :: 0 <= j < |names| && Key(names[j]) == k
  }

  lemma CleanTakesOwned(s: State, key: string, fails: nat -> bool, r: nat, k: string)
    requires forall i: nat :: !fails(i)
    ensures TakesName(s, key, fails, r, k) <==> OwnsName(s, key, r, k)
  {
  }

  /** A close that meets no failure takes from each registrar exactly the names the integrations own there. */
  lemma CleanCloseTakesOwned(s: State, order: seq<string>, fails: string -> nat -> bool, arrivals: seq<Factory>, r: nat, k: string)
    requires Aligned(s) && (forall i, j :: 0 <= i < j < |order| ==> order[i] != order[j]) && r in s.registrars
    requires forall key :: key in s.entries ==> key in order
    requires forall key: string, i: nat :: !fails(key)(i)
    ensures var s' := Close(s, order, fails, arrivals);
            && r in s'.registrars
            && (k in s'.registrars[r] <==> k in s.registrars[r] && forall key :: key in s.entries ==> !OwnsName(s, key, r, k))
            && (k in s'.registrars[r] ==> s'.registrars[r][k] == s.registrars[r][k])
  {
    CloseTakesExactly(s, order, fails, arrivals, r, k);
    forall key | key in s.entries
      ensures TakesName(s, key, fails(key), r, k) <==> OwnsName(s, key, r, k)
    {
      CleanTakesOwned(s, key, fails(key), r, k);
    }
  }

  /** A close that meets no failure leaves nothing registered and no analyzer active. */
  lemma CleanCloseEmpties(s: State, order: seq<string>, fails: string -> nat -> bool, arrivals: seq<Factory>)
    requires Inv(s) && (forall i, j :: 0 <= i < j < |order| ==> order[i] != order[j])
    requires forall key :: key in s.entries ==> key in order
    requires forall key: string, i: nat :: !fails(key)(i)
    ensures Close(s, order, fails, arrivals).entries == map[] && Close(s, order, fails, arrivals).live == {}
  {
    var s' := Close(s, order, fails, arrivals);
    forall k
      ensures k !in s'.entries
    {
      CloseKeepsWhatFailed(s, order, fails, arrivals, k);
      if k in s.entries && s.entries[k].active.Some? {
        assert EntryAligned(s, k);
        KeptNone(s.entries[k].active.value.names, 0, fails(k));
      }
    }
    CloseKeepsInv(s, order, fails, arrivals);
    assert forall id :: id in s'.live ==> exists key :: Contains(s', key, id);
  }
}
