/**
 The registry object: the loops of activation with rollback, deactivation and close over mutable
 fields, each proved to be the operation the invariant is about.
 */
module RegistryService {
  import opened Wrappers
  import opened Strings
  import opened Registry
  import RegistryTheorems

  /** The flags after clearing each analyzer from `i` on and setting those again whose removal fails. */
  function Reflag(flags: set<nat>, analyzers: seq<Managed>, i: nat, fails: nat -> bool): set<nat>
    requires i <= |analyzers|
    decreases |analyzers| - i
  {
    if i == |analyzers| then flags
    else
      var id := analyzers[i].id;
      Reflag(if fails(i) then (flags - {id}) + {id} else flags - {id}, analyzers, i + 1, fails)
  }

  /** Exactly the analyzers that stay keep their flags. */
  lemma {:induction false} ReflagKeeps(flags: set<nat>, analyzers: seq<Managed>, i: nat, fails: nat -> bool)
    requires i <= |analyzers| && DistinctIds(analyzers)
    ensures Reflag(flags, analyzers, i, fails) == (flags - Ids(analyzers[i..])) + Ids(Kept(analyzers, i, fails))
    decreases |analyzers| - i
  {
    if i < |analyzers| {
      var m, rest := analyzers[i], Kept(analyzers, i + 1, fails);
      assert analyzers[i..] == [m] + analyzers[i + 1..];
      assert Ids(analyzers[i..]) == {m.id} + Ids(analyzers[i + 1..]);
      assert m.id !in Ids(analyzers[i + 1..]);
      assert Ids([m] + rest) == {m.id} + Ids(rest);
      assert [] + rest == rest;
      ReflagKeeps(if fails(i) then (flags - {m.id}) + {m.id} else flags - {m.id}, analyzers, i + 1, fails);
    }
  }

  /** The elements that stay, behind those already found to stay. */
  function KeptOnto<T>(found: seq<T>, xs: seq<T>, i: nat, fails: nat -> bool): seq<T>
    requires i <= |xs|
    decreases |xs| - i
  {
    if i == |xs| then found else KeptOnto(if fails(i) then found + [xs[i]] else found, xs, i + 1, fails)
  }

  lemma {:induction false} KeptOntoIs<T>(found: seq<T>, xs: seq<T>, i: nat, fails: nat -> bool)
    requires i <= |xs|
    ensures KeptOnto(found, xs, i, fails) == found + Kept(xs, i, fails)
    decreases |xs| - i
  {
    if i < |xs| {
      KeptOntoIs(if fails(i) then found + [xs[i]] else found, xs, i + 1, fails);
    }
  }

  /** The removal loop: clear a flag, unregister, and on failure set the flag again and keep the analyzer. */
  method RemoveEach(active: Activation, held: Contents, live: set<nat>, fails: nat -> bool)
    returns (contents: Contents, flags: set<nat>, remainingAnalyzers: seq<Managed>, remainingNames: seq<string>)
    requires |active.names| == |active.analyzers| && DistinctIds(active.analyzers)
    ensures contents == RemoveFrom(held, active.names, 0, fails)
    ensures flags == (live - Ids(active.analyzers)) + Ids(Kept(active.analyzers, 0, fails))
    ensures remainingAnalyzers == Kept(active.analyzers, 0, fails) && remainingNames == Kept(active.names, 0, fails)
  {
    contents, flags := held, live;
    remainingAnalyzers, remainingNames := [], [];
    for index := 0 to |active.names|
      invariant RemoveFrom(contents, active.names, index, fails) == RemoveFrom(held, active.names, 0, fails)
      invariant KeptOnto(remainingNames, active.names, index, fails) == KeptOnto([], active.names, 0, fails)
      invariant KeptOnto(remainingAnalyzers, active.analyzers, index, fails) == KeptOnto([], active.analyzers, 0, fails)
      invariant Reflag(flags, active.analyzers, index, fails) == Reflag(live, active.analyzers, 0, fails)
    {
      var name, analyzer := active.names[index], active.analyzers[index];
      flags := flags - {analyzer.id};
      if fails(index) {
        flags := flags + {analyzer.id};
        remainingAnalyzers := remainingAnalyzers + [analyzer];
        remainingNames := remainingNames + [name];
      } else {
        contents := contents - {Key(name)};
      }
    }
    KeptOntoIs([], active.names, 0, fails);
    KeptOntoIs([], active.analyzers, 0, fails);
    ReflagKeeps(live, active.analyzers, 0, fails);
    assert active.analyzers[0..] == active.analyzers;
  }

  class IntegrationRegistry {
    var entries: map<string, Entry>
    var live: set<nat>
    var nextId: nat
    var registrars: map<nat, Contents>

    function View(): State
      reads this
    {
      State(entries, live, nextId, registrars)
    }

    constructor (registrars: map<nat, Contents>)
      ensures View() == State(map[], {}, 0, registrars)
    {
      entries, live, nextId := map[], {}, 0;
      this.registrars := registrars;
    }

    method RegisterDefinition(f: Factory) returns (result: Result<(), Error>)
      modifies this`entries
      ensures (View(), result) == Register(old(View()), f)
    {
      if f.Missing? {
        return Err(IntegrationRequired);
      }
      if f.Unsupported? {
        return Err(FactoryInvalid);
      }
      if f.BadMetadata? {
        return Err(MetadataInvalid);
      }
      var key := Key(f.name);
      if key in entries {
        return Err(Duplicate);
      }
      entries := entries[key := Entry(f.name, None)];
      result := Ok(());
    }

    method UnregisterDefinition(name: string) returns (result: Result<(), Error>)
      modifies this`entries
      ensures (View(), result) == Unregister(old(View()), name)
    {
      var key := Key(name);
      if key == "" || key !in entries {
        return Err(NotFound);
      }
      if entries[key].active.Some? {
        return Err(Active);
      }
      entries := entries - {key};
      result := Ok(());
    }

    /** Validate a factory's analyzers against a scratch registry, wrapping them as it goes. */
    function RawKey(raw: Raw): string {
      Key(Trim(raw.name))
    }

    method ValidateAnalyzers(raw: seq<Raw>) returns (managed: Option<seq<Managed>>)
      ensures managed == if Acceptable(raw) then Some(Wrap(raw, nextId)) else None
    {
      if |raw| == 0 || |raw| > MAX_ANALYZERS {
        return None;
      }
      var wrapped: seq<Managed> := [];
      var seen: set<string> := {};
      for i := 0 to |raw|
        invariant wrapped == Wrap(raw, nextId)[..i]
        invariant forall k :: k in seen <==> exists j :: 0 <= j < i && RawKey(raw[j]) == k
        invariant forall j :: 0 <= j < i ==> raw[j].valid
        invariant forall j, l :: 0 <= j < l < i ==> RawKey(raw[j]) != RawKey(raw[l])
      {
        var key := RawKey(raw[i]);
        if !raw[i].valid {
          return None;
        }
        if key in seen {
          ghost var j :| 0 <= j < i && RawKey(raw[j]) == key;
          assert Wrap(raw, 0)[j].name == Trim(raw[j].name) && Wrap(raw, 0)[i].name == Trim(raw[i].name);
          return None;
        }
        seen := seen + {key};
        wrapped := wrapped + [Managed(nextId + i, Trim(raw[i].name))];
      }
      assert DistinctKeys(Wrap(raw, 0)) by {
        assert forall j :: 0 <= j < |raw| ==> Wrap(raw, 0)[j].name == Trim(raw[j].name);
      }
      assert Wrap(raw, nextId)[..|raw|] == Wrap(raw, nextId);
      managed := Some(wrapped);
    }

    /** Undo the first `n` registrations, last one first. */
    method RollBack(registrar: nat, managed: seq<Managed>, n: nat, w: World)
      requires registrar in registrars && n <= |managed|
      modifies this`registrars
      ensures registrars == old(registrars)[registrar := Rollback(old(registrars[registrar]), managed, n, w)]
    {
      var index: nat := n;
      while index > 0
        invariant index <= n && registrar in registrars
        invariant Rollback(registrars[registrar], managed, index, w) == Rollback(old(registrars[registrar]), managed, n, w)
        invariant registrars == old(registrars)[registrar := registrars[registrar]]
      {
        index := index - 1;
        if !w.unregisterFails(index) {
          registrars := registrars[registrar := registrars[registrar] - {Key(managed[index].name)}];
        }
      }
    }

    /** Register every analyzer, or none. */
    method RegisterAnalyzers(registrar: nat, managed: seq<Managed>, w: World) returns (ok: bool)
      requires registrar in registrars
      modifies this`registrars
      ensures match RegisterFrom(old(registrars[registrar]), managed, 0, w)
              case Done(c) => ok && registrars == old(registrars)[registrar := c]
              case Stopped(c, at) => !ok && registrars == old(registrars)[registrar := Rollback(c, managed, at, w)]
    {
      for index := 0 to |managed|
        invariant registrar in registrars
        invariant RegisterFrom(registrars[registrar], managed, index, w) == RegisterFrom(old(registrars[registrar]), managed, 0, w)
        invariant registrars == old(registrars)[registrar := registrars[registrar]]
      {
        var key := Key(managed[index].name);
        if w.ctxDone(index) || w.registerFails(index) || key in registrars[registrar] {
          RollBack(registrar, managed, index, w);
          return false;
        }
        registrars := registrars[registrar := registrars[registrar][key := Ours(managed[index].id)]];
      }
      ok := true;
    }

    method SetActive(managed: seq<Managed>)
      modifies this`live
      ensures live == old(live) + Ids(managed)
    {
      for i := 0 to |managed|
        invariant live == old(live) + Ids(managed[..i])
      {
        assert managed[..i + 1] == managed[..i] + [managed[i]];
        live := live + {managed[i].id};
      }
      assert managed[..|managed|] == managed;
    }

    method ActivateIntegration(name: string, registrar: Option<nat>, raw: Option<seq<Raw>>, w: World) returns (result: Result<(), Error>)
      requires registrar.Some? ==> registrar.value in registrars
      modifies this
      ensures (View(), result) == Activate(old(View()), name, registrar, raw, w)
    {
      var key := Key(name);
      if key == "" || key !in entries {
        return Err(NotFound);
      }
      if entries[key].active.Some? {
        if registrar.None? {
          return Err(RegistrarRequired);
        }
        if entries[key].active.value.registrar == registrar.value {
          return Ok(());
        }
        return Err(RegistrarMismatch);
      }
      if registrar.None? {
        return Err(RegistrarRequired);
      }
      if raw.None? {
        return Err(ActivationFailed);
      }
      var validated := ValidateAnalyzers(raw.value);
      if validated.None? {
        return Err(ActivationFailed);
      }
      var managed := validated.value;
      nextId := nextId + |managed|;
      var ok := RegisterAnalyzers(registrar.value, managed, w);
      if !ok {
        return Err(ActivationFailed);
      }
      SetActive(managed);
      entries := entries[key := entries[key].(active := Some(Activation(registrar.value, managed, Names(managed))))];
      result := Ok(());
    }

    /** Deactivate one entry, as Deactivate and Close do. */
    method RemoveAnalyzers(key: string, fails: nat -> bool)
      requires key in entries && entries[key].active.Some? && EntryAligned(View(), key) && Owned(View(), key)
      modifies this
      ensures View() == Sweep(old(View()), key, fails)
    {
      var active := entries[key].active.value;
      var contents, flags, analyzers, names := RemoveEach(active, registrars[active.registrar], live, fails);
      live := flags;
      registrars := registrars[active.registrar := contents];
      var left := if |names| == 0 then None else Some(Activation(active.registrar, analyzers, names));
      entries := entries[key := entries[key].(active := left)];
    }

    method DeactivateIntegration(name: string, registrar: Option<nat>, fails: nat -> bool, closeFails: bool)
      returns (result: Result<(), Error>)
      requires Inv(View()) && (registrar.Some? ==> registrar.value in registrars)
      modifies this
      ensures (View(), result) == Deactivate(old(View()), name, registrar, fails, closeFails)
    {
      var key := Key(name);
      if key == "" || key !in entries {
        return Err(NotFound);
      }
      if entries[key].active.None? {
        return Ok(());
      }
      if registrar.None? {
        return Err(RegistrarRequired);
      }
      if entries[key].active.value.registrar != registrar.value {
        return Err(RegistrarMismatch);
      }
      assert EntryAligned(View(), key) && Owned(View(), key);
      RemoveAnalyzers(key, fails);
      if entries[key].active.Some? || closeFails {
        return Err(DeactivationFailed);
      }
      result := Ok(());
    }

    /** Close over the entries in some order; `arrivals` are the registrations that slip in before the final replacement. */
    method CloseAll(order: seq<string>, fails: string -> nat -> bool, arrivals: seq<Factory>, closeFails: bool)
      returns (result: Result<(), Error>)
      requires Inv(View())
      modifies this
      ensures View() == Close(old(View()), order, fails, arrivals) && result == CloseResult(View(), closeFails)
    {
      for i := 0 to |order|
        invariant Inv(View())
        invariant SweepAll(View(), order[i..], fails) == SweepAll(old(View()), order, fails)
      {
        var key := order[i];
        assert order[i..][1..] == order[i + 1..];
        if key in entries && entries[key].active.Some? {
          assert EntryAligned(View(), key) && Owned(View(), key);
          RegistryTheorems.SweepKeepsInv(View(), key, fails(key));
          RemoveAnalyzers(key, fails(key));
        }
      }
      var retained := map key | key in entries && entries[key].active.Some? :: entries[key];
      ghost var swept := View();
      for i := 0 to |arrivals|
        invariant RegisterAll(View(), arrivals[i..]) == RegisterAll(swept, arrivals)
      {
        assert arrivals[i..][1..] == arrivals[i + 1..];
        var _ := RegisterDefinition(arrivals[i]);
      }
      entries := retained;
      if retained != map[] || closeFails {
        return Err(DeactivationFailed);
      }
      result := Ok(());
    }
  }
}
