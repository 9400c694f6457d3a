/**
 The integration registry: definitions that are registered, activated against an external analyzer
 registrar, deactivated, unregistered and closed.  A registrar is a map from analyzer keys to the
 analyzer it holds; any call on it may fail, and a call that fails changes nothing.
 */
module Registry {
  import opened Wrappers
  import opened Strings

  datatype Error =
    | IntegrationRequired | FactoryInvalid | MetadataInvalid | Duplicate | NotFound | Active | RegistrarRequired | RegistrarMismatch
    | ActivationFailed | DeactivationFailed

  /** What a registrar holds under a key: one of this registry's analyzers, or somebody else's. */
  datatype Owner = Ours(id: nat) | Foreign(tag: nat)

  datatype Managed = Managed(id: nat, name: string)

  datatype Activation = Activation(registrar: nat, analyzers: seq<Managed>, names: seq<string>)

  datatype Entry = Entry(name: string, active: Option<Activation>)

  type Contents = map<string, Owner>

  datatype State = State(
    entries: map<string, Entry>,
    live: set<nat>,                    // analyzers whose active flag is set
    nextId: nat,
    registrars: map<nat, Contents>
  )

  /** What is offered for registration; `name` is the normalized name of valid metadata. */
  datatype Factory = Missing | Unsupported | BadMetadata | Described(name: string)

  /** An analyzer as its factory returns it; `valid` is the metadata check of the scanner registry. */
  datatype Raw = Raw(name: string, valid: bool)

  /** How the context and the registrar behave, by position. */
  datatype World = World(ctxDone: nat -> bool, registerFails: nat -> bool, unregisterFails: nat -> bool)

  const MAX_ANALYZERS: nat := 64

  // ---------------------------------------------------------------- names

  function LowerChar(c: char): char {
    if 'A' <= c <= 'Z' then (c as int - 'A' as int + 'a' as int) as char else c
  }

  function Lower(s: string): string {
    seq(|s|, i requires 0 <= i < |s| => LowerChar(s[i]))
  }

  /** The case-insensitive key of an integration or analyzer name. */
  function Key(name: string): string {
    Lower(Trim(name))
  }

  // ---------------------------------------------------------------- registrar calls in sequence

  datatype Registration = Done(contents: Contents) | Stopped(contents: Contents, at: nat)

  /** Register analyzers `i..` in order, checking the context before each one. */
  function RegisterFrom(c: Contents, managed: seq<Managed>, i: nat, w: World): (r: Registration)
    requires i <= |managed|
    ensures r.Stopped? ==> i <= r.at < |managed|
    decreases |managed| - i
  {
    if i == |managed| then Done(c)
    else if w.ctxDone(i) || w.registerFails(i) || Key(managed[i].name) in c then Stopped(c, i)
    else RegisterFrom(c[Key(managed[i].name) := Ours(managed[i].id)], managed, i + 1, w)
  }

  /** Unregister the first `n` analyzers, last one first, ignoring failures. */
  function Rollback(c: Contents, managed: seq<Managed>, n: nat, w: World): Contents
    requires n <= |managed|
  {
    if n == 0 then c
    else Rollback(if w.unregisterFails(n - 1) then c else c - {Key(managed[n - 1].name)}, managed, n - 1, w)
  }

  /** The contents after unregistering the names `i..`, those that fail staying. */
  function RemoveFrom(c: Contents, names: seq<string>, i: nat, fails: nat -> bool): Contents
    requires i <= |names|
    decreases |names| - i
  {
    if i == |names| then c
    else RemoveFrom(if fails(i) then c else c - {Key(names[i])}, names, i + 1, fails)
  }

  /** The elements of `xs` at the positions that failed, in order. */
  function Kept<T>(xs: seq<T>, i: nat, fails: nat -> bool): seq<T>
    requires i <= |xs|
    decreases |xs| - i
  {
    if i == |xs| then [] else (if fails(i) then [xs[i]] else []) + Kept(xs, i + 1, fails)
  }

  // ---------------------------------------------------------------- operations

  function Names(managed: seq<Managed>): seq<string> {
    seq(|managed|, i requires 0 <= i < |managed| => managed[i].name)
  }

  function Ids(managed: seq<Managed>): set<nat> {
    set m | m in managed :: m.id
  }

  /** Wrap the factory's analyzers with fresh identities. */
  function Wrap(raw: seq<Raw>, nextId: nat): seq<Managed> {
    seq(|raw|, i requires 0 <= i < |raw| => Managed(nextId + i, Trim(raw[i].name)))
  }

  predicate DistinctKeys(managed: seq<Managed>) {
    forall i, j :: 0 <= i < j < |managed| ==> Key(managed[i].name) != Key(managed[j].name)
  }

  predicate DistinctIds(managed: seq<Managed>) {
    forall i, j :: 0 <= i < j < |managed| ==> managed[i].id != managed[j].id
  }

  predicate Acceptable(raw: seq<Raw>) {
    && 0 < |raw| <= MAX_ANALYZERS
    && (forall i :: 0 <= i < |raw| ==> raw[i].valid)
    && DistinctKeys(Wrap(raw, 0))
  }

  /** Registration of a definition under the key of its name. */
  function Register(s: State, f: Factory): (State, Result<(), Error>) {
    match f
    case Missing => (s, Err(IntegrationRequired))
    case Unsupported => (s, Err(FactoryInvalid))
    case BadMetadata => (s, Err(MetadataInvalid))
    case Described(name) =>
      if Key(name) in s.entries then (s, Err(Duplicate))
      else (s.(entries := s.entries[Key(name) := Entry(name, None)]), Ok(()))
  }

  function Unregister(s: State, name: string): (State, Result<(), Error>) {
    var key := Key(name);
    if key == "" || key !in s.entries then (s, Err(NotFound))
    else if s.entries[key].active.Some? then (s, Err(Active))
    else (s.(entries := s.entries - {key}), Ok(()))
  }

  /** Activation of the analyzers a factory returned; None stands for a factory or context error before registration. */
  function Activate(s: State, name: string, registrar: Option<nat>, raw: Option<seq<Raw>>, w: World): (State, Result<(), Error>)
    requires registrar.Some? ==> registrar.value in s.registrars
  {
    var key := Key(name);
    if key == "" || key !in s.entries then (s, Err(NotFound))
    else if s.entries[key].active.Some? then
      (s, if registrar.None? then Err(RegistrarRequired)
          else if s.entries[key].active.value.registrar == registrar.value then Ok(())
          else Err(RegistrarMismatch))
    else if registrar.None? then (s, Err(RegistrarRequired))
    else if raw.None? || !Acceptable(raw.value) then (s, Err(ActivationFailed))
    else
      var managed := Wrap(raw.value, s.nextId);
      var s1 := s.(nextId := s.nextId + |managed|);
      match RegisterFrom(s.registrars[registrar.value], managed, 0, w)
      case Stopped(c, at) =>
        (s1.(registrars := s.registrars[registrar.value := Rollback(c, managed, at, w)]), Err(ActivationFailed))
      case Done(c) =>
        (s1.(registrars := s.registrars[registrar.value := c],
             live := s.live + Ids(managed),
             entries := s.entries[key := s.entries[key].(active := Some(Activation(registrar.value, managed, Names(managed))))]),
         Ok(()))
  }

  /** What is left of an activation after an attempt to remove its analyzers. */
  function Remaining(a: Activation, fails: nat -> bool): Option<Activation>
    requires |a.names| == |a.analyzers|
  {
    var names := Kept(a.names, 0, fails);
    if names == [] then None else Some(Activation(a.registrar, Kept(a.analyzers, 0, fails), names))
  }

  /** Deactivate one entry: remove what can be removed, keep the rest active. */
  function Sweep(s: State, key: string, fails: nat -> bool): State
    requires key in s.entries && s.entries[key].active.Some?
    requires var a := s.entries[key].active.value; a.registrar in s.registrars && |a.names| == |a.analyzers|
  {
    var a := s.entries[key].active.value;
    s.(entries := s.entries[key := s.entries[key].(active := Remaining(a, fails))],
       live := (s.live - Ids(a.analyzers)) + Ids(Kept(a.analyzers, 0, fails)),
       registrars := s.registrars[a.registrar := RemoveFrom(s.registrars[a.registrar], a.names, 0, fails)])
  }

  /** Sweep the active entries among `keys`, in that order. */
  function SweepAll(s: State, keys: seq<string>, fails: string -> nat -> bool): State
    requires Aligned(s)
    decreases keys
  {
    if keys == [] then s
    else
      var key := keys[0];
      if key in s.entries && s.entries[key].active.Some? then
        SweepAligned(s, key, fails(key));
        SweepAll(Sweep(s, key, fails(key)), keys[1..], fails)
      else SweepAll(s, keys[1..], fails)
  }

  function RegisterAll(s: State, names: seq<Factory>): State
    decreases names
  {
    if names == [] then s else RegisterAll(Register(s, names[0]).0, names[1..])
  }

  /**
   Close: sweep every entry in some order, then keep only the entries that are still active.
   `arrivals` are the Register calls that slip in between, which the final replacement drops.
   */
  function Close(s: State, order: seq<string>, fails: string -> nat -> bool, arrivals: seq<Factory>): State
    requires Aligned(s)
  {
    var swept := SweepAll(s, order, fails);
    var busy := RegisterAll(swept, arrivals);
    busy.(entries := map key | key in swept.entries && swept.entries[key].active.Some? :: swept.entries[key])
  }

  /** Close reports a failure exactly when it kept something or closing an analyzer failed. */
  function CloseResult(closed: State, closeFails: bool): Result<(), Error> {
    if closed.entries != map[] || closeFails then Err(DeactivationFailed) else Ok(())
  }

  /** Deactivation; `closeFails` says whether closing a removed analyzer reports an error. */
  function Deactivate(s: State, name: string, registrar: Option<nat>, fails: nat -> bool, closeFails: bool): (State, Result<(), Error>)
    requires registrar.Some? ==> registrar.value in s.registrars
    requires Aligned(s)
  {
    var key := Key(name);
    if key == "" || key !in s.entries then (s, Err(NotFound))
    else if s.entries[key].active.None? then (s, Ok(()))
    else if registrar.None? then (s, Err(RegistrarRequired))
    else if s.entries[key].active.value.registrar != registrar.value then (s, Err(RegistrarMismatch))
    else
      var s' := Sweep(s, key, fails);
      (s', if s'.entries[key].active.Some? || closeFails then Err(DeactivationFailed) else Ok(()))
  }

  // ---------------------------------------------------------------- the invariant

  predicate EntryAligned(s: State, key: string)
    requires key in s.entries
  {
    s.entries[key].active.Some? ==>
      var a := s.entries[key].active.value;
      a.registrar in s.registrars && |a.names| == |a.analyzers| && a.names == Names(a.analyzers)
  }

  predicate Aligned(s: State) {
    forall key :: key in s.entries ==> EntryAligned(s, key)
  }

  /** The registrar holds each analyzer of an activation under that analyzer's name. */
  predicate Owned(s: State, key: string)
    requires key in s.entries && EntryAligned(s, key)
  {
    s.entries[key].active.Some? ==>
      var a := s.entries[key].active.value;
      && a.names != []
      && DistinctKeys(a.analyzers) && DistinctIds(a.analyzers)
      && forall i :: 0 <= i < |a.analyzers| ==>
           && a.analyzers[i].id < s.nextId
           && Key(a.names[i]) in s.registrars[a.registrar]
           && s.registrars[a.registrar][Key(a.names[i])] == Ours(a.analyzers[i].id)
  }

  predicate Contains(s: State, key: string, id: nat) {
    key in s.entries && s.entries[key].active.Some? && id in Ids(s.entries[key].active.value.analyzers)
  }

  /** No analyzer belongs to two activations. */
  ghost predicate Apart(s: State) {
    forall k1, k2, id :: Contains(s, k1, id) && Contains(s, k2, id) ==> k1 == k2
  }

  /** An analyzer is active exactly when some registered integration's activation contains it. */
  ghost predicate LiveIsOwned(s: State) {
    forall id :: id in s.live <==> exists key :: Contains(s, key, id)
  }

  ghost predicate Inv(s: State) {
    && Aligned(s)
    && (forall key :: key in s.entries ==> Owned(s, key) && key == Key(s.entries[key].name))
    && Apart(s)
    && LiveIsOwned(s)
  }

  // ---------------------------------------------------------------- what is kept

  lemma {:induction false} KeptNames(managed: seq<Managed>, i: nat, fails: nat -> bool)
    requires i <= |managed|
    ensures |Kept(Names(managed), i, fails)| == |Kept(managed, i, fails)|
    ensures Kept(Names(managed), i, fails) == Names(Kept(managed, i, fails))
    decreases |managed| - i
  {
    if i < |managed| {
      KeptNames(managed, i + 1, fails);
    }
  }

  lemma SweepAligned(s: State, key: string, fails: nat -> bool)
    requires Aligned(s) && key in s.entries && s.entries[key].active.Some?
    ensures Aligned(Sweep(s, key, fails))
  {
    var a := s.entries[key].active.value;
    assert EntryAligned(s, key);
    KeptNames(a.analyzers, 0, fails);
    var s' := Sweep(s, key, fails);
    forall k | k in s'.entries
      ensures EntryAligned(s', k)
    {
      assert EntryAligned(s, k);
    }
  }
}
