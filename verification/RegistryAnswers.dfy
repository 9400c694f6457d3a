/** What each call of the registry answers and changes, exactly, in terms of the failures it met. */
module RegistryAnswers {
  import opened Wrappers
  import opened Strings
  import opened Registry
  import opened RegistryTheorems

  // ---------------------------------------------------------------- names

  /** The same character, or one letter from A to Z as capital and small. */
  predicate SameLetter(c: char, d: char) {
    || c == d
    || ('A' <= c <= 'Z' && d as int == c as int + 32)
    || ('A' <= d <= 'Z' && c as int == d as int + 32)
  }

  /** Two names have the same key exactly when, without the white space around them, they differ only in letter case. */
  lemma SameKeyExactly(a: string, b: string)
    ensures Key(a) == Key(b) <==> |Trim(a)| == |Trim(b)| && forall i :: 0 <= i < |Trim(a)| ==> SameLetter(Trim(a)[i], Trim(b)[i])
  {
    var x, y := Trim(a), Trim(b);
    if |x| == |y| {
      forall i | 0 <= i < |x|
        ensures Lower(x)[i] == Lower(y)[i] <==> SameLetter(x[i], y[i])
      {
      }
      assert Lower(x) == Lower(y) <==> forall i :: 0 <= i < |x| ==> Lower(x)[i] == Lower(y)[i];
    } else {
      assert |Lower(x)| != |Lower(y)|;
    }
  }

  // ---------------------------------------------------------------- registration

  /** Register answers by what it is offered, and a success adds exactly one inactive integration under its free key. */
  lemma RegistersExactly(s: State, f: Factory)
    ensures var (s', result) := Register(s, f);
            && (result.Ok? <==> f.Described? && Key(f.name) !in s.entries)
            && (result.Ok? ==> s' == s.(entries := s'.entries) && s'.entries.Keys == s.entries.Keys + {Key(f.name)}
                               && s'.entries[Key(f.name)] == Entry(f.name, None)
                               && forall k :: k in s.entries ==> s'.entries[k] == s.entries[k])
            && (result.Err? ==> s' == s)
            && (result == Err(IntegrationRequired) <==> f.Missing?) && (result == Err(FactoryInvalid) <==> f.Unsupported?)
            && (result == Err(MetadataInvalid) <==> f.BadMetadata?) && (result == Err(Duplicate) <==> f.Described? && !result.Ok?)
  {
  }

  /** Unregister takes away exactly the one integration it names, if that is there and inactive. */
  lemma UnregistersExactly(s: State, name: string)
    ensures var (s', result) := Unregister(s, name);
            var there := Key(name) != "" && Key(name) in s.entries;
            && (result.Ok? <==> there && s.entries[Key(name)].active.None?)
            && (result == Err(NotFound) <==> !there) && (result == Err(Active) <==> there && s.entries[Key(name)].active.Some?)
            && (result.Err? ==> s' == s)
            && (result.Ok? ==> s' == s.(entries := s'.entries) && s'.entries.Keys == s.entries.Keys - {Key(name)}
                               && forall k :: k in s'.entries ==> s'.entries[k] == s.entries[k])
  {
  }

  /** A registration is undone by unregistering it. */
  lemma UnregisterUndoes(s: State, name: string)
    requires Key(name) != "" && Key(name) !in s.entries
    ensures Unregister(Register(s, Described(name)).0, name) == (s, Ok(()))
  {
    var key := Key(name);
    assert s.entries[key := Entry(name, None)] - {key} == s.entries;
  }

  // ---------------------------------------------------------------- activation

  /** Nothing stands in the way of registering all these analyzers, one after the other. */
  predicate AllRegister(c: Contents, raw: seq<Raw>, w: World) {
    forall i :: 0 <= i < |raw| ==> !w.ctxDone(i) && !w.registerFails(i) && Key(Trim(raw[i].name)) !in c
  }

  /** There are 1 to 64 analyzers, all valid, no two under one key. */
  predicate Offerable(raw: seq<Raw>) {
    && 1 <= |raw| <= 64 && (forall i :: 0 <= i < |raw| ==> raw[i].valid)
    && forall i, j :: 0 <= i < j < |raw| ==> Key(Trim(raw[i].name)) != Key(Trim(raw[j].name))
  }

  lemma OfferableExactly(raw: seq<Raw>)
    ensures Acceptable(raw) <==> Offerable(raw)
  {
    assert forall i :: 0 <= i < |raw| ==> Wrap(raw, 0)[i].name == Trim(raw[i].name);
  }

  lemma {:induction false} RegistersAll(c: Contents, managed: seq<Managed>, i: nat, w: World)
    requires i <= |managed| && DistinctKeys(managed)
    ensures RegisterFrom(c, managed, i, w).Done? <==>
              forall j :: i <= j < |managed| ==> !w.ctxDone(j) && !w.registerFails(j) && Key(managed[j].name) !in c
    decreases |managed| - i
  {
    if i < |managed| && !w.ctxDone(i) && !w.registerFails(i) && Key(managed[i].name) !in c {
      var c' := c[Key(managed[i].name) := Ours(managed[i].id)];
      RegistersAll(c', managed, i + 1, w);
      assert forall j :: i < j < |managed| ==> (Key(managed[j].name) in c' <==> Key(managed[j].name) in c);
    }
  }

  lemma NamesOfWrapped(raw: seq<Raw>, first: nat)
    ensures Names(Wrap(raw, first)) == seq(|raw|, i requires 0 <= i < |raw| => Trim(raw[i].name))
    ensures forall i :: 0 <= i < |raw| ==> Wrap(raw, first)[i].name == Trim(raw[i].name)
  {
  }

  lemma RegistersExactlyAll(c: Contents, raw: seq<Raw>, first: nat, w: World)
    requires Acceptable(raw)
    ensures RegisterFrom(c, Wrap(raw, first), 0, w).Done? <==> AllRegister(c, raw, w)
  {
    WrapKeys(raw, first);
    NamesOfWrapped(raw, first);
    RegistersAll(c, Wrap(raw, first), 0, w);
  }

  lemma RegistrationGains(c: Contents, raw: seq<Raw>, first: nat, w: World)
    requires Acceptable(raw) && RegisterFrom(c, Wrap(raw, first), 0, w).Done?
    ensures GainsAll(c, RegisterFrom(c, Wrap(raw, first), 0, w).contents, raw, first)
  {
    WrapKeys(raw, first);
    RegisterFills(c, Wrap(raw, first), 0, w);
    FilledGains(c, raw, first);
  }

  /** For a registered and inactive integration, Activate succeeds exactly when its analyzers are offerable and all register. */
  lemma ActivatesExactly(s: State, name: string, registrar: Option<nat>, raw: Option<seq<Raw>>, w: World)
    requires registrar.Some? ==> registrar.value in s.registrars
    requires Key(name) != "" && Key(name) in s.entries && s.entries[Key(name)].active.None?
    ensures var result := Activate(s, name, registrar, raw, w).1;
            && (result.Ok? <==>
                  && registrar.Some? && raw.Some? && Offerable(raw.value)
                  && AllRegister(s.registrars[registrar.value], raw.value, w))
            && (result == Err(RegistrarRequired) <==> registrar.None?)
            && (result.Err? && registrar.Some? ==> result == Err(ActivationFailed))
  {
    if registrar.Some? && raw.Some? {
      OfferableExactly(raw.value);
      if Acceptable(raw.value) {
        RegistersExactlyAll(s.registrars[registrar.value], raw.value, s.nextId, w);
      }
    }
  }

  predicate HoldsAll(s: State, a: Activation, registrar: nat, raw: seq<Raw>) {
    && a.registrar == registrar && |a.analyzers| == |a.names| == |raw|
    && forall i :: 0 <= i < |raw| ==> a.names[i] == Trim(raw[i].name) && a.analyzers[i] == Managed(s.nextId + i, Trim(raw[i].name))
  }

  /** The contents are the same but for these analyzers, each under its own key. */
  ghost predicate GainsAll(c: Contents, c': Contents, raw: seq<Raw>, first: nat) {
    && (forall k :: k in c ==> k in c' && c'[k] == c[k])
    && (forall i :: 0 <= i < |raw| ==> Key(Trim(raw[i].name)) in c' && c'[Key(Trim(raw[i].name))] == Ours(first + i))
    && (forall k :: k in c' && k !in c ==> exists i :: 0 <= i < |raw| && Key(Trim(raw[i].name)) == k)
  }

  /** The `n` identities from `first` on. */
  function Span(first: nat, n: nat): (ids: set<nat>)
    ensures forall id :: id in ids <==> first <= id < first + n
  {
    if n == 0 then {} else Span(first, n - 1) + {first + n - 1}
  }

  /** The state after a successful activation of an inactive integration. */
  ghost predicate Gained(s: State, active: State, key: string, registrar: nat, raw: seq<Raw>) {
    && registrar in s.registrars && key in s.entries && s.entries[key].active.None? && registrar in active.registrars
    && key in active.entries && active.entries[key].active.Some? && active.entries[key].name == s.entries[key].name
    && active == State(s.entries[key := active.entries[key]], s.live + Span(s.nextId, |raw|), s.nextId + |raw|,
                       s.registrars[registrar := active.registrars[registrar]])
    && HoldsAll(s, active.entries[key].active.value, registrar, raw)
    && GainsAll(s.registrars[registrar], active.registrars[registrar], raw, s.nextId)
    && (forall i :: 0 <= i < |raw| ==> Key(Trim(raw[i].name)) !in s.registrars[registrar])
  }

  /**
   It then holds all of them, in order and under fresh identities, all active, and its registrar has gained
   exactly their keys; nothing else changes.
   */
  lemma ActivationGains(s: State, name: string, registrar: nat, raw: seq<Raw>, w: World)
    requires registrar in s.registrars && Key(name) != "" && Key(name) in s.entries && s.entries[Key(name)].active.None?
    requires Activate(s, name, Some(registrar), Some(raw), w).1.Ok?
    ensures Gained(s, Activate(s, name, Some(registrar), Some(raw), w).0, Key(name), registrar, raw)
  {
    var s' := Activate(s, name, Some(registrar), Some(raw), w).0;
    var managed := Wrap(raw, s.nextId);
    RegistersExactlyAll(s.registrars[registrar], raw, s.nextId, w);
    RegistrationGains(s.registrars[registrar], raw, s.nextId, w);
    WrappedIds(raw, s.nextId);
    ActivationState(s, name, registrar, raw, w);
    WrappedHolds(s, registrar, raw);
  }

  lemma ActivationState(s: State, name: string, registrar: nat, raw: seq<Raw>, w: World)
    requires registrar in s.registrars && Key(name) != "" && Key(name) in s.entries && s.entries[Key(name)].active.None?
    requires Activate(s, name, Some(registrar), Some(raw), w).1.Ok?
    ensures var managed := Wrap(raw, s.nextId);
            var r := RegisterFrom(s.registrars[registrar], managed, 0, w);
            && Acceptable(raw) && r.Done?
            && Activate(s, name, Some(registrar), Some(raw), w).0 ==
                 State(s.entries[Key(name) := Entry(s.entries[Key(name)].name, Some(Activation(registrar, managed, Names(managed))))],
                       s.live + Ids(managed), s.nextId + |raw|, s.registrars[registrar := r.contents])
  {
  }

  lemma WrappedHolds(s: State, registrar: nat, raw: seq<Raw>)
    ensures var managed := Wrap(raw, s.nextId); HoldsAll(s, Activation(registrar, managed, Names(managed)), registrar, raw)
  {
  }

  lemma WrappedIds(raw: seq<Raw>, first: nat)
    ensures Ids(Wrap(raw, first)) == Span(first, |raw|)
  {
    var managed := Wrap(raw, first);
    forall id | first <= id < first + |raw|
      ensures id in Ids(managed)
    {
      assert managed[id - first] in managed;
    }
  }

  /** An integration that is active already is left alone, and told by its registrar. */
  lemma ActiveStays(s: State, name: string, registrar: Option<nat>, raw: Option<seq<Raw>>, w: World)
    requires registrar.Some? ==> registrar.value in s.registrars
    requires Key(name) == "" || Key(name) !in s.entries || s.entries[Key(name)].active.Some?
    ensures var (s', result) := Activate(s, name, registrar, raw, w);
            && s' == s
            && (result == Err(NotFound) <==> Key(name) == "" || Key(name) !in s.entries)
            && (result.Ok? <==> Key(name) != "" && Key(name) in s.entries && registrar == Some(s.entries[Key(name)].active.value.registrar))
            && (result.Err? && result.error != NotFound ==>
                  result.error == if registrar.None? then RegistrarRequired else RegistrarMismatch)
  {
  }

  // ---------------------------------------------------------------- deactivation

  /** These are the failing positions below `n`, in increasing order. */
  predicate AreFailing(ps: seq<nat>, n: nat, fails: nat -> bool) {
    && (forall m :: 0 <= m < |ps| ==> ps[m] < n && fails(ps[m]))
    && (forall m, l :: 0 <= m < l < |ps| ==> ps[m] < ps[l])
    && (forall p :: 0 <= p < n && fails(p) ==> p in ps)
  }

  predicate Selects<T(==)>(xs: seq<T>, ps: seq<nat>, chosen: seq<T>) {
    |chosen| == |ps| && forall m :: 0 <= m < |ps| ==> ps[m] < |xs| && chosen[m] == xs[ps[m]]
  }

  /** Of an activation, exactly what could not be removed is left, in order; nothing left is no activation. */
  ghost predicate LeavesFailed(a: Activation, left: Option<Activation>, fails: nat -> bool) {
    && (left.None? <==> Never(fails, |a.names|))
    && (left.Some? ==> left.value.registrar == a.registrar)
    && (left.Some? ==>
          exists ps: seq<nat> ::
            && AreFailing(ps, |a.names|, fails)
            && Selects(a.names, ps, left.value.names) && Selects(a.analyzers, ps, left.value.analyzers))
  }

  lemma RemainingIsWhatFailed(a: Activation, fails: nat -> bool)
    requires |a.names| == |a.analyzers|
    ensures LeavesFailed(a, Remaining(a, fails), fails)
  {
    var ps := Positions(|a.names|, 0, fails);
    PositionsAreThose(|a.names|, 0, fails);
    KeptIsWhatFailed(a.names, 0, fails);
    KeptIsWhatFailed(a.analyzers, 0, fails);
    assert AreFailing(ps, |a.names|, fails);
    if ps == [] {
      assert forall p :: 0 <= p < |a.names| && fails(p) ==> p in ps;
    } else {
      assert fails(ps[0]);
    }
  }

  /** This analyzer is removed. */
  predicate Removes(a: Activation, fails: nat -> bool, id: nat) {
    exists j :: 0 <= j < |a.analyzers| && !fails(j) && a.analyzers[j].id == id
  }

  lemma KeptIdExactly(managed: seq<Managed>, fails: nat -> bool, j: nat)
    requires DistinctIds(managed) && j < |managed|
    ensures managed[j].id in Ids(Kept(managed, 0, fails)) <==> fails(j)
  {
    var kept, ps := Kept(managed, 0, fails), Positions(|managed|, 0, fails);
    KeptIsWhatFailed(managed, 0, fails);
    PositionsAreThose(|managed|, 0, fails);
    if fails(j) {
      var m :| 0 <= m < |ps| && ps[m] == j;
      assert kept[m] == managed[j];
    }
    if managed[j].id in Ids(kept) {
      var m :| 0 <= m < |kept| && kept[m].id == managed[j].id;
      assert kept[m] == managed[ps[m]] && ps[m] == j;
    }
  }

  lemma RemovedIdExactly(managed: seq<Managed>, fails: nat -> bool, id: nat)
    requires DistinctIds(managed)
    ensures id in Ids(managed) - Ids(Kept(managed, 0, fails)) <==> exists j :: 0 <= j < |managed| && !fails(j) && managed[j].id == id
    ensures Ids(Kept(managed, 0, fails)) <= Ids(managed)
  {
    KeptIds(managed, fails);
    if id in Ids(managed) {
      var j :| 0 <= j < |managed| && managed[j].id == id;
      KeptIdExactly(managed, fails, j);
      if l :| 0 <= l < |managed| && !fails(l) && managed[l].id == id {
        assert l == j;
      }
    }
  }

  lemma OwnIsLive(s: State, key: string, id: nat)
    requires Inv(s) && key in s.entries && s.entries[key].active.Some?
    ensures DistinctIds(s.entries[key].active.value.analyzers)
    ensures id in Ids(s.entries[key].active.value.analyzers) ==> id in s.live
  {
    assert EntryAligned(s, key) && Owned(s, key);
    if id in Ids(s.entries[key].active.value.analyzers) {
      assert Contains(s, key, id);
    }
  }

  lemma SweepSilences(s: State, key: string, fails: nat -> bool, id: nat)
    requires Inv(s) && key in s.entries && s.entries[key].active.Some? && EntryAligned(s, key)
    ensures id in Sweep(s, key, fails).live <==> id in s.live && !Removes(s.entries[key].active.value, fails, id)
  {
    OwnIsLive(s, key, id);
    RemovedIdExactly(s.entries[key].active.value.analyzers, fails, id);
  }

  /**
   Deactivate on an integration's own registrar: what stays is exactly what could not be removed, in order; the
   registrar loses exactly the keys of the others; exactly these are no longer active; nothing else changes.
   */
  lemma DeactivatesExactly(s: State, name: string, registrar: nat, fails: nat -> bool, closeFails: bool, k: string, id: nat)
    requires Inv(s) && ActiveOn(s, Key(name), registrar)
    ensures var (s', result) := Deactivate(s, name, Some(registrar), fails, closeFails);
            var a := s.entries[Key(name)].active.value;
            && s' == State(s.entries[Key(name) := s'.entries[Key(name)]], s'.live, s.nextId,
                           s.registrars[registrar := s'.registrars[registrar]])
            && s'.entries[Key(name)] == s.entries[Key(name)].(active := s'.entries[Key(name)].active)
            && LeavesFailed(a, s'.entries[Key(name)].active, fails)
            && (k in s'.registrars[registrar] <==>
                  k in s.registrars[registrar] && !exists j :: 0 <= j < |a.names| && !fails(j) && Key(a.names[j]) == k)
            && (k in s'.registrars[registrar] ==> s'.registrars[registrar][k] == s.registrars[registrar][k])
            && (id in s'.live <==> id in s.live && !Removes(a, fails, id))
            && (result.Ok? <==> Never(fails, |a.names|) && !closeFails) && (result.Err? ==> result == Err(DeactivationFailed))
  {
    var a := s.entries[Key(name)].active.value;
    assert EntryAligned(s, Key(name));
    RemainingIsWhatFailed(a, fails);
    RemovesTheOthers(s.registrars[registrar], a.names, 0, fails);
    SweepSilences(s, Key(name), fails, id);
  }

  /** In every other case Deactivate changes nothing. */
  lemma DeactivateRefuses(s: State, name: string, registrar: Option<nat>, fails: nat -> bool, closeFails: bool)
    requires Inv(s) && (registrar.Some? ==> registrar.value in s.registrars && !ActiveOn(s, Key(name), registrar.value))
    ensures var (s', result) := Deactivate(s, name, registrar, fails, closeFails);
            var there := Key(name) != "" && Key(name) in s.entries;
            && s' == s
            && (result == Err(NotFound) <==> !there) && (result.Ok? <==> there && s.entries[Key(name)].active.None?)
            && (result == Err(RegistrarRequired) <==> there && s.entries[Key(name)].active.Some? && registrar.None?)
            && (result == Err(RegistrarMismatch) <==> there && s.entries[Key(name)].active.Some? && registrar.Some?)
  {
  }

  /** Deactivation undoes activation: but for the identities used up, the registry is as before. */
  lemma DeactivateUndoesActivate(s: State, name: string, registrar: nat, raw: seq<Raw>, w: World, clean: nat -> bool)
    requires Inv(s) && registrar in s.registrars && Key(name) != "" && Key(name) in s.entries && s.entries[Key(name)].active.None?
    requires Activate(s, name, Some(registrar), Some(raw), w).1.Ok? && Never(clean, |raw|)
    ensures var active := Activate(s, name, Some(registrar), Some(raw), w).0;
            Inv(active) && Deactivate(active, name, Some(registrar), clean, false) == (s.(nextId := active.nextId), Ok(()))
  {
    var active := Activate(s, name, Some(registrar), Some(raw), w).0;
    ActivatesExactly(s, name, Some(registrar), Some(raw), w);
    ActivationGains(s, name, registrar, raw, w);
    ActivateKeepsInv(s, name, Some(registrar), Some(raw), w);
    SweepUndoes(s, active, Key(name), registrar, raw, clean);
  }

  lemma SweepUndoes(s: State, active: State, key: string, registrar: nat, raw: seq<Raw>, clean: nat -> bool)
    requires Inv(s) && Gained(s, active, key, registrar, raw) && Never(clean, |raw|) && Aligned(active)
    ensures EntryAligned(active, key) && Sweep(active, key, clean) == s.(nextId := active.nextId)
  {
    var a := active.entries[key].active.value;
    LiveUndone(s, raw, a);
    RemovalUndone(s.registrars[registrar], active.registrars[registrar], raw, s.nextId, a.names, clean);
    assert EntryAligned(active, key);
    SweepBack(s, active, key, registrar, |raw|, clean);
  }

  lemma SweepBack(s: State, active: State, key: string, registrar: nat, n: nat, clean: nat -> bool)
    requires Aligned(active) && registrar in s.registrars && registrar in active.registrars
    requires key in s.entries && s.entries[key].active.None? && key in active.entries && active.entries[key].active.Some?
    requires active.entries[key].name == s.entries[key].name && active.entries == s.entries[key := active.entries[key]]
    requires active.registrars == s.registrars[registrar := active.registrars[registrar]]
    requires var a := active.entries[key].active.value;
             && a.registrar == registrar && |a.names| == |a.analyzers| == n && Never(clean, n)
             && active.live - Ids(a.analyzers) == s.live
             && RemoveFrom(active.registrars[registrar], a.names, 0, clean) == s.registrars[registrar]
    ensures Sweep(active, key, clean) == s.(nextId := active.nextId)
  {
    CleanSweep(active, key, clean);
    assert s.entries[key := active.entries[key]][key := s.entries[key]] == s.entries;
    assert active.registrars[registrar := s.registrars[registrar]] == s.registrars;
  }

  lemma LiveUndone(s: State, raw: seq<Raw>, a: Activation)
    requires Inv(s) && HoldsAll(s, a, a.registrar, raw)
    ensures (s.live + Span(s.nextId, |raw|)) - Ids(a.analyzers) == s.live
  {
    HeldIds(s.nextId, raw, a.analyzers);
    LiveIsOld(s);
    SpanIsNew(s.live, s.nextId, |raw|);
  }

  lemma HeldIds(first: nat, raw: seq<Raw>, analyzers: seq<Managed>)
    requires |analyzers| == |raw| && forall i :: 0 <= i < |raw| ==> analyzers[i] == Managed(first + i, Trim(raw[i].name))
    ensures Ids(analyzers) == Span(first, |raw|)
  {
    assert analyzers == Wrap(raw, first);
    WrappedIds(raw, first);
  }

  lemma LiveIsOld(s: State)
    requires Inv(s)
    ensures forall id :: id in s.live ==> id < s.nextId
  {
    forall id | id in s.live
      ensures id < s.nextId
    {
      var owner :| Contains(s, owner, id);
      OwnedIds(s, owner, id);
    }
  }

  lemma SpanIsNew(ids: set<nat>, first: nat, n: nat)
    requires forall id :: id in ids ==> id < first
    ensures ids + Span(first, n) - Span(first, n) == ids
  {
  }

  lemma RemovalUndone(c: Contents, c': Contents, raw: seq<Raw>, first: nat, names: seq<string>, clean: nat -> bool)
    requires Never(clean, |raw|) && |names| == |raw| && GainsAll(c, c', raw, first)
    requires forall i :: 0 <= i < |raw| ==> names[i] == Trim(raw[i].name) && Key(names[i]) !in c
    ensures RemoveFrom(c', names, 0, clean) == c
  {
    RemovesTheOthers(c', names, 0, clean);
    forall k | k in c' && k !in c
      ensures k !in RemoveFrom(c', names, 0, clean)
    {
      var i :| 0 <= i < |raw| && Key(Trim(raw[i].name)) == k;
      assert Key(names[i]) == k && !clean(i);
    }
  }

  lemma FilledGains(c: Contents, raw: seq<Raw>, first: nat)
    requires DistinctKeys(Wrap(raw, first)) && NewKeys(c, Wrap(raw, first), |raw|)
    ensures GainsAll(c, Filled(c, Wrap(raw, first), |raw|), raw, first)
  {
    var managed := Wrap(raw, first);
    var c' := Filled(c, managed, |raw|);
    forall k | k in c
      ensures k in c' && c'[k] == c[k]
    {
      FilledKeeps(c, managed, |raw|, k);
    }
    forall i | 0 <= i < |raw|
      ensures Key(Trim(raw[i].name)) in c' && c'[Key(Trim(raw[i].name))] == Ours(first + i)
    {
      FilledHolds(c, managed, |raw|, i);
    }
    forall k | k in c' && k !in c
      ensures exists i :: 0 <= i < |raw| && Key(Trim(raw[i].name)) == k
    {
      FilledOnly(c, managed, |raw|, k);
      var i :| 0 <= i < |raw| && Key(managed[i].name) == k;
    }
  }

  // ---------------------------------------------------------------- close

  /** Close succeeds exactly when every removal and every closing worked. */
  lemma CloseSucceedsExactly(s: State, order: seq<string>, fails: string -> nat -> bool, arrivals: seq<Factory>, closeFails: bool)
    requires Inv(s) && (forall i, j :: 0 <= i < j < |order| ==> order[i] != order[j])
    requires forall key :: key in s.entries ==> key in order
    ensures var result := CloseResult(Close(s, order, fails, arrivals), closeFails);
            && (result.Ok? <==> !closeFails && forall key :: key in s.entries && s.entries[key].active.Some? ==>
                                  Never(fails(key), |s.entries[key].active.value.names|))
            && (result.Err? ==> result == Err(DeactivationFailed))
  {
    var closed := Close(s, order, fails, arrivals);
    forall key
      ensures key in closed.entries <==>
                key in s.entries && s.entries[key].active.Some? && !Never(fails(key), |s.entries[key].active.value.names|)
    {
      CloseKeepsWhatFailed(s, order, fails, arrivals, key);
      if key in s.entries && s.entries[key].active.Some? {
        assert EntryAligned(s, key);
        RemainingIsWhatFailed(s.entries[key].active.value, fails(key));
      }
    }
    if key :| key in closed.entries {
    } else {
      assert closed.entries == map[];
    }
  }
}
