/** The file cache is a bounded map with expiry: whole runs give the answers of that map, and nothing is lost early. */
module CacheTheorems {
  import opened Wrappers
  import opened Clock
  import opened Ordering
  import opened FileCache
  import Cardinality

  // ---------------------------------------------------------------- the simple form

  datatype Entry = Entry(key: Key, value: Bytes, createdAt: Time, expiresAt: Time)

  type Table = map<string, Entry>

  function TableGet(o: Options, m: Table, key: Key, now: Time, st: Standing): (Table, Outcome) {
    var d := FileName(o, key);
    if !st.atStart then (m, Refused(Cancelled))
    else if !Validates(o, o.normalize(key)) then (m, Refused(InvalidKey))
    else if !st.atLock then (m, Refused(Cancelled))
    else if d !in m then (m, Refused(Miss))
    else if m[d].expiresAt <= now then (m - {d}, Refused(Miss))
    else (m, Found(o.sanitize(m[d].value)))
  }

  function TablePut(o: Options, m: Table, key: Key, value: Bytes, ttls: seq<int>, now: Time, st: Standing): (Table, Outcome) {
    var d := FileName(o, key);
    if !st.atStart then (m, Refused(Cancelled))
    else
      match Prepare(o, key, value, ttls, now)
      case Err(e) => (m, Refused(e))
      case Ok(e) =>
        if !st.atLock || !st.underLock then (m, Refused(Cancelled))
        else if d == "" then (m, Refused(InvalidKey))
        else if d !in m && |m| >= o.maxEntries then (m, Refused(LimitReached))
        else (m[d := Entry(o.reread(e.key), e.value, e.createdAt, e.expiresAt)], Done)
  }

  function TableRemove(o: Options, m: Table, key: Key, st: Standing): (Table, Outcome) {
    if !st.atStart then (m, Refused(Cancelled))
    else if !Validates(o, o.normalize(key)) then (m, Refused(InvalidKey))
    else if !st.atLock then (m, Refused(Cancelled))
    else (m - {FileName(o, key)}, Done)
  }

  function TableScan(m: Table, names: seq<string>, i: nat, entries: seq<Listing>, clock: nat -> Time, st: Standing): (Table, Outcome)
    requires i <= |names|
    decreases |names| - i
  {
    if i == |names| then (m, Listed(SortListings(entries)))
    else if !st.atFile(i) then (m, Refused(Cancelled))
    else if names[i] !in m then TableScan(m, names, i + 1, entries, clock, st)
    else
      var e := m[names[i]];
      if e.expiresAt <= clock(i) then TableScan(m - {names[i]}, names, i + 1, entries, clock, st)
      else
        var listing := Listing(names[i], e.key, |e.value|, e.createdAt, e.expiresAt);
        TableScan(m, names, i + 1, entries + [listing], clock, st)
  }

  function TableDrop(m: Table, names: seq<string>, i: nat, st: Standing): (Table, Outcome)
    requires i <= |names|
    decreases |names| - i
  {
    if i == |names| then (m, Done)
    else if !st.atFile(i) then (m, Refused(Cancelled))
    else TableDrop(m - {names[i]}, names, i + 1, st)
  }

  function TableStep(o: Options, m: Table, op: Op, st: Standing): (Table, Outcome) {
    match op
    case Get(key, now) => TableGet(o, m, key, now, st)
    case Put(key, value, ttls, now) => TablePut(o, m, key, value, ttls, now, st)
    case Remove(key) => TableRemove(o, m, key, st)
    case List(clock) =>
      if !st.atStart || !st.atLock then (m, Refused(Cancelled)) else TableScan(m, Ascending(m.Keys), 0, [], clock, st)
    case Purge =>
      if !st.atStart || !st.atLock then (m, Refused(Cancelled)) else TableDrop(m, Ascending(m.Keys), 0, st)
  }

  // ---------------------------------------------------------------- what the directory holds

  /**
   A key whose entry can be read back: as decoded from its file, and normalized once more, it still has the
   digest it was stored under.
   */
  predicate Settled(o: Options, key: Key) {
    var back := o.reread(o.normalize(key));
    Digest(o, back) == FileName(o, key) && FileName(o, back) == FileName(o, key)
  }

  /** A file under this name that Get accepts. */
  predicate WellFiled(o: Options, name: string, f: File) {
    && OpenFile(o, f).Some?
    && var e := f.content.envelope;
       e.digest == name && FileName(o, e.key) == name && |e.value| <= o.maxValueBytes
  }

  predicate Filed(o: Options, files: Directory) {
    forall n :: n in files ==> WellFiled(o, n, files[n])
  }

  function EntryOf(f: File): Entry {
    match f.content
    case Garbage => Entry(Key(""), [], 0, 0)
    case Sealed(e) => Entry(e.key, e.value, e.createdAt, e.expiresAt)
  }

  function TableOf(files: Directory): Table {
    map n | n in files :: EntryOf(files[n])
  }

  lemma TableLess(files: Directory, name: string)
    ensures TableOf(files - {name}) == TableOf(files) - {name}
  {
  }

  lemma TableMore(files: Directory, name: string, f: File)
    ensures TableOf(files[name := f]) == TableOf(files)[name := EntryOf(f)]
  {
  }

  lemma TableSize(files: Directory)
    ensures TableOf(files).Keys == files.Keys && |TableOf(files)| == |files|
  {
    assert TableOf(files).Keys == files.Keys;
    assert |TableOf(files)| == |TableOf(files).Keys| && |files| == |files.Keys|;
  }

  /** What Set writes is well filed exactly when its key is settled; the sealed size always fits the bound for reading. */
  lemma PreparedIsWellFiled(o: Options, key: Key, value: Bytes, ttls: seq<int>, now: Time)
    ensures var p := Prepare(o, key, value, ttls, now);
            p.Ok? ==> p.value.digest == FileName(o, key)
                      && (FileName(o, key) != "" ==> (WellFiled(o, p.value.digest, SealedFile(o, p.value)) <==> Settled(o, key)))
  {
  }

  // ---------------------------------------------------------------- refinement

  /** An operation that would store an entry does so under a settled key. */
  predicate Lasting(o: Options, op: Op) {
    op.Put? && Prepare(o, op.key, op.value, op.ttls, op.now).Ok? && FileName(o, op.key) != "" ==> Settled(o, op.key)
  }

  /**
   A step of the directory is a step of the table, with the same answer, leaves only well-filed files and
   finds nothing corrupt.
   */
  ghost predicate Refines(o: Options, before: State, after: (State, Outcome), table: (Table, Outcome)) {
    && Filed(o, after.0.files) && table == (TableOf(after.0.files), after.1)
    && after.0.counters.corruptions == before.counters.corruptions
  }

  lemma GetRefines(o: Options, s: State, key: Key, now: Time, st: Standing)
    requires Filed(o, s.files)
    ensures Refines(o, s, GetStep(o, s, key, now, st), TableGet(o, TableOf(s.files), key, now, st))
  {
    TableLess(s.files, FileName(o, key));
  }

  lemma PutRefines(o: Options, s: State, key: Key, value: Bytes, ttls: seq<int>, now: Time, st: Standing)
    requires Filed(o, s.files) && Lasting(o, Put(key, value, ttls, now))
    ensures Refines(o, s, PutStep(o, s, key, value, ttls, now, st), TablePut(o, TableOf(s.files), key, value, ttls, now, st))
  {
    PreparedIsWellFiled(o, key, value, ttls, now);
    TableSize(s.files);
    var p := Prepare(o, key, value, ttls, now);
    if p.Ok? {
      TableMore(s.files, p.value.digest, SealedFile(o, p.value));
    }
  }

  lemma RemoveRefines(o: Options, s: State, key: Key, st: Standing)
    requires Filed(o, s.files)
    ensures Refines(o, s, RemoveStep(o, s, key, st), TableRemove(o, TableOf(s.files), key, st))
  {
    var d := FileName(o, key);
    TableLess(s.files, d);
    if d !in s.files {
      assert TableOf(s.files) - {d} == TableOf(s.files);
    }
  }

  lemma {:induction false} ScanRefines(o: Options, s: State, names: seq<string>, i: nat, entries: seq<Listing>,
                                       clock: nat -> Time, st: Standing)
    requires Filed(o, s.files) && i <= |names|
    ensures Refines(o, s, Scan(o, s, names, i, entries, clock, st), TableScan(TableOf(s.files), names, i, entries, clock, st))
    decreases |names| - i
  {
    if i < |names| && st.atFile(i) {
      if names[i] !in s.files {
        ScanRefines(o, s, names, i + 1, entries, clock, st);
      } else {
        var e := s.files[names[i]].content.envelope;
        TableLess(s.files, names[i]);
        if e.expiresAt <= clock(i) {
          ScanRefines(o, s.(files := s.files - {names[i]}), names, i + 1, entries, clock, st);
        } else {
          ScanRefines(o, s, names, i + 1, entries + [ListingOf(e)], clock, st);
        }
      }
    }
  }

  lemma {:induction false} DropRefines(o: Options, s: State, names: seq<string>, i: nat, st: Standing)
    requires Filed(o, s.files) && i <= |names|
    ensures Refines(o, s, Drop(s, names, i, st), TableDrop(TableOf(s.files), names, i, st))
    decreases |names| - i
  {
    if i < |names| && st.atFile(i) {
      TableLess(s.files, names[i]);
      DropRefines(o, s.(files := s.files - {names[i]}), names, i + 1, st);
    }
  }

  /** Every operation on a directory of the cache's own files answers as the bounded map with expiry. */
  lemma StepRefines(o: Options, s: State, op: Op, st: Standing)
    requires Filed(o, s.files) && Lasting(o, op)
    ensures Refines(o, s, Step(o, s, op, st), TableStep(o, TableOf(s.files), op, st))
  {
    TableSize(s.files);
    match op
    case Get(key, now) => GetRefines(o, s, key, now, st);
    case Put(key, value, ttls, now) => PutRefines(o, s, key, value, ttls, now, st);
    case Remove(key) => RemoveRefines(o, s, key, st);
    case List(clock) => ScanRefines(o, s, Ascending(s.files.Keys), 0, [], clock, st);
    case Purge => DropRefines(o, s, Ascending(s.files.Keys), 0, st);
  }

  datatype Request = Request(op: Op, st: Standing)

  function Run(o: Options, s: State, requests: seq<Request>): (State, seq<Outcome>)
    decreases requests
  {
    if requests == [] then (s, [])
    else
      var (s', out) := Step(o, s, requests[0].op, requests[0].st);
      var (s'', outs) := Run(o, s', requests[1..]);
      (s'', [out] + outs)
  }

  function TableRun(o: Options, m: Table, requests: seq<Request>): (Table, seq<Outcome>)
    decreases requests
  {
    if requests == [] then (m, [])
    else
      var (m', out) := TableStep(o, m, requests[0].op, requests[0].st);
      var (m'', outs) := TableRun(o, m', requests[1..]);
      (m'', [out] + outs)
  }

  /** No operation of the sequence stores an entry under a key that is not settled. */
  predicate AllLasting(o: Options, requests: seq<Request>) {
    forall i :: 0 <= i < |requests| ==> Lasting(o, requests[i].op)
  }

  /** Any sequence of operations gives exactly the answers of the bounded map with expiry. */
  lemma {:induction false} RunRefines(o: Options, s: State, requests: seq<Request>)
    requires Filed(o, s.files) && AllLasting(o, requests)
    ensures var (t, outs) := Run(o, s, requests);
            Filed(o, t.files) && TableRun(o, TableOf(s.files), requests) == (TableOf(t.files), outs)
    decreases requests
  {
    if requests != [] {
      StepRefines(o, s, requests[0].op, requests[0].st);
      RunRefines(o, Step(o, s, requests[0].op, requests[0].st).0, requests[1..]);
    }
  }

  lemma TableNeverCorrupt(o: Options, m: Table, op: Op, st: Standing)
    ensures TableStep(o, m, op, st).1 != Refused(Corrupt)
  {
    match op
    case List(clock) => TableScanNeverCorrupt(m, Ascending(m.Keys), 0, [], clock, st);
    case Purge => TableDropNeverCorrupt(m, Ascending(m.Keys), 0, st);
    case _ =>
  }

  lemma {:induction false} TableScanNeverCorrupt(m: Table, names: seq<string>, i: nat, entries: seq<Listing>,
                                                 clock: nat -> Time, st: Standing)
    requires i <= |names|
    ensures TableScan(m, names, i, entries, clock, st).1 != Refused(Corrupt)
    decreases |names| - i
  {
    if i < |names| && st.atFile(i) {
      if names[i] !in m {
        TableScanNeverCorrupt(m, names, i + 1, entries, clock, st);
      } else {
        var e := m[names[i]];
        TableScanNeverCorrupt(m - {names[i]}, names, i + 1, entries, clock, st);
        TableScanNeverCorrupt(m, names, i + 1, entries + [Listing(names[i], e.key, |e.value|, e.createdAt, e.expiresAt)], clock, st);
      }
    }
  }

  lemma {:induction false} TableDropNeverCorrupt(m: Table, names: seq<string>, i: nat, st: Standing)
    requires i <= |names|
    ensures TableDrop(m, names, i, st).1 != Refused(Corrupt)
    decreases |names| - i
  {
    if i < |names| && st.atFile(i) {
      TableDropNeverCorrupt(m - {names[i]}, names, i + 1, st);
    }
  }

  /** Nothing stored under a settled key is ever reported or counted as corrupt. */
  lemma {:induction false} NeverCorrupt(o: Options, s: State, requests: seq<Request>)
    requires Filed(o, s.files) && AllLasting(o, requests)
    ensures var (t, outs) := Run(o, s, requests);
            Refused(Corrupt) !in outs && t.counters.corruptions == s.counters.corruptions
    decreases requests
  {
    if requests != [] {
      StepRefines(o, s, requests[0].op, requests[0].st);
      TableNeverCorrupt(o, TableOf(s.files), requests[0].op, requests[0].st);
      NeverCorrupt(o, Step(o, s, requests[0].op, requests[0].st).0, requests[1..]);
    }
  }

  /**
   What Set checks before it looks at the directory, in order: the key, the size of the sanitized value, the number and sign
   of the given lifetimes, whether the entry can be encoded, and the size of that.
   */
  lemma PreparesExactly(o: Options, key: Key, value: Bytes, ttls: seq<int>, now: Time)
    ensures var p := Prepare(o, key, value, ttls, now);
            var invalid, large := !o.valid(o.normalize(o.normalize(key))), |o.sanitize(value)| > o.maxValueBytes;
            var lifetime := |ttls| <= 1 && (|ttls| == 1 ==> ttls[0] >= 0);
            && (p == Err(InvalidKey) <==> invalid)
            && (p == Err(InvalidTtl) <==> !invalid && !large && !lifetime)
            && (!invalid && large ==> p == Err(TooLarge))
            && (p.Ok? ==> lifetime && !large && o.encodable(p.value) && o.encodedLength(p.value) <= 2 * o.maxValueBytes + 262_144)
            && (p == Err(Unencodable) || p == Err(TooLarge) || p.Ok? || p == Err(InvalidKey) || p == Err(InvalidTtl))
  {
  }

  /** An entry that is set lasts for the lifetime given, or for the default when none is given or zero. */
  lemma SetLasts(o: Options, s: State, key: Key, value: Bytes, ttls: seq<int>, now: Time, st: Standing)
    requires PutStep(o, s, key, value, ttls, now, st).1 == Done
    ensures var f := PutStep(o, s, key, value, ttls, now, st).0.files;
            && FileName(o, key) in f && f[FileName(o, key)].content.Sealed?
            && var e := f[FileName(o, key)].content.envelope;
               && e.version == "v2" && e.digest == FileName(o, key) && e.value == o.sanitize(value) && e.createdAt == now
               && e.expiresAt == now + (if |ttls| == 1 && ttls[0] > 0 then ttls[0] else o.defaultTtl)
  {
  }

  // ---------------------------------------------------------------- keys that are not settled

  /**
   Right after a Set that is done, a Get of the same entry before its expiry reports it corrupt, and
   removes it, if and only if the key is not settled; otherwise it returns the value.
   */
  lemma CorruptExactly(o: Options, s: State, key: Key, value: Bytes, ttls: seq<int>, now: Time, st: Standing,
                       again: Key, later: Time, st': Standing)
    requires PutStep(o, s, key, value, ttls, now, st).1 == Done
    requires FileName(o, again) == FileName(o, key) && Validates(o, o.normalize(again))
    requires later < now + Ttl(o, ttls).value && st'.atStart && st'.atLock
    ensures var (t, out) := GetStep(o, PutStep(o, s, key, value, ttls, now, st).0, again, later, st');
            && (out == Refused(Corrupt) <==> !Settled(o, key))
            && (Settled(o, key) ==> out == Found(o.sanitize(o.sanitize(value))))
            && (FileName(o, key) in t.files <==> Settled(o, key))
  {
    PreparedIsWellFiled(o, key, value, ttls, now);
  }

  const NEW_CACHE := State(map[], Counters(0, 0, 0, 0, 0))

  /** Some Set stores an entry under this key. */
  ghost predicate Storable(o: Options, key: Key) {
    FileName(o, key) != "" && exists value, ttls, now :: Prepare(o, key, value, ttls, now).Ok?
  }

  ghost predicate SetsOnly(requests: seq<Request>, keys: iset<Key>) {
    forall i :: 0 <= i < |requests| && requests[i].op.Put? ==> requests[i].op.key in keys
  }

  /** No run that sets only these keys ever meets anything corrupt. */
  ghost predicate Sound(o: Options, keys: iset<Key>) {
    forall requests: seq<Request> :: SetsOnly(requests, keys) ==>
      Refused(Corrupt) !in Run(o, NEW_CACHE, requests).1 && Run(o, NEW_CACHE, requests).0.counters.corruptions == 0
  }

  const ALWAYS := Standing(true, true, true, (i: nat) => true)

  lemma SetThenGet(o: Options, key: Key, value: Bytes, ttls: seq<int>, now: Time) returns (requests: seq<Request>)
    requires o.maxEntries > 0 && FileName(o, key) != "" && Prepare(o, key, value, ttls, now).Ok? && !Settled(o, key)
    ensures SetsOnly(requests, iset{key}) && Refused(Corrupt) in Run(o, NEW_CACHE, requests).1
  {
    var put, get := Request(Put(key, value, ttls, now), ALWAYS), Request(Get(key, now + Ttl(o, ttls).value - 1), ALWAYS);
    requests := [put, get];
    CorruptExactly(o, NEW_CACHE, key, value, ttls, now, ALWAYS, key, get.op.now, ALWAYS);
    var s := Step(o, NEW_CACHE, put.op, put.st).0;
    assert requests[1..] == [get] && requests[1..][1..] == [];
    assert Run(o, s, [get]).1 == [Refused(Corrupt)];
    assert Run(o, NEW_CACHE, requests).1[1] == Refused(Corrupt);
  }

  /** No run over some keys meets anything corrupt if and only if each of them that can be stored is settled. */
  lemma NeverCorruptExactly(o: Options, keys: iset<Key>)
    requires o.maxEntries > 0
    ensures Sound(o, keys) <==> forall k :: k in keys && Storable(o, k) ==> Settled(o, k)
  {
    if forall k :: k in keys && Storable(o, k) ==> Settled(o, k) {
      forall requests: seq<Request> | SetsOnly(requests, keys)
        ensures Refused(Corrupt) !in Run(o, NEW_CACHE, requests).1 && Run(o, NEW_CACHE, requests).0.counters.corruptions == 0
      {
        assert AllLasting(o, requests);
        NeverCorrupt(o, NEW_CACHE, requests);
      }
    } else {
      var k :| k in keys && Storable(o, k) && !Settled(o, k);
      var value, ttls, now :| Prepare(o, k, value, ttls, now).Ok?;
      var requests := SetThenGet(o, k, value, ttls, now);
      assert SetsOnly(requests, keys);
    }
  }

  // ---------------------------------------------------------------- what is listed

  function ListingAt(m: Table, name: string): Listing
    requires name in m
  {
    Listing(name, m[name].key, |m[name].value|, m[name].createdAt, m[name].expiresAt)
  }

  predicate IsHeld(m: Table, x: Listing) {
    x.digest in m && x == ListingAt(m, x.digest)
  }

  function Digests(entries: seq<Listing>): seq<string> {
    seq(|entries|, i requires 0 <= i < |entries| => entries[i].digest)
  }

  predicate SortedByDigest(entries: seq<Listing>) {
    forall i, j :: 0 <= i < j < |entries| ==> !Below(entries[j].digest, entries[i].digest)
  }

  lemma {:induction false} InsertKeeps(x: Listing, entries: seq<Listing>)
    requires SortedByDigest(entries)
    ensures SortedByDigest(InsertListing(x, entries)) && multiset(InsertListing(x, entries)) == multiset(entries) + multiset{x}
  {
    if entries == [] {
    } else if !Below(entries[0].digest, x.digest) {
      forall j | 0 <= j < |entries|
        ensures !Below(entries[j].digest, x.digest)
      {
        NotBelowChains(x.digest, entries[0].digest, entries[j].digest);
      }
    } else {
      var rest := InsertListing(x, entries[1..]);
      InsertKeeps(x, entries[1..]);
      assert entries == [entries[0]] + entries[1..];
      forall j | 0 <= j < |rest|
        ensures !Below(rest[j].digest, entries[0].digest)
      {
        assert rest[j] in multiset(entries[1..]) + multiset{x};
        if rest[j] in entries[1..] {
          var i :| 0 <= i < |entries[1..]| && entries[1..][i] == rest[j];
        } else {
          Trichotomy(entries[0].digest, x.digest);
        }
      }
    }
  }

  /** Not below is transitive, and reflexive. */
  lemma NotBelowChains(a: string, b: string, c: string)
    requires !Below(b, a) && (!Below(c, b) || b == c)
    ensures !Below(c, a)
  {
    Trichotomy(a, b);
    Trichotomy(b, c);
    Trichotomy(a, c);
    if Below(a, b) && Below(b, c) {
      Transitive(a, b, c);
    }
  }

  lemma {:induction false} SortSorts(entries: seq<Listing>)
    ensures SortedByDigest(SortListings(entries)) && multiset(SortListings(entries)) == multiset(entries)
  {
    if entries != [] {
      SortSorts(entries[1..]);
      InsertKeeps(entries[0], SortListings(entries[1..]));
      assert entries == [entries[0]] + entries[1..];
    }
  }

  lemma SortKeepsElements(entries: seq<Listing>)
    ensures forall x :: x in SortListings(entries) <==> x in entries
  {
    SortSorts(entries);
    assert forall x :: x in SortListings(entries) <==> x in multiset(entries);
  }

  /** What ascends already stays as it is. */
  lemma {:induction false} AscendingStays(entries: seq<Listing>)
    requires StrictlyAscending(Digests(entries))
    ensures SortListings(entries) == entries
  {
    if entries != [] {
      var rest := entries[1..];
      assert forall i :: 0 <= i < |rest| ==> Digests(rest)[i] == Digests(entries)[i + 1];
      AscendingStays(rest);
      if rest != [] {
        assert Below(Digests(entries)[0], Digests(entries)[1]);
        Trichotomy(entries[0].digest, rest[0].digest);
      }
      assert entries == [entries[0]] + rest;
    }
  }

  /** In any directory, whatever it holds, List returns its entries sorted by digest. */
  lemma {:induction false} ScanComesSorted(o: Options, s: State, names: seq<string>, i: nat, entries: seq<Listing>,
                                          clock: nat -> Time, st: Standing)
    requires i <= |names|
    ensures var out := Scan(o, s, names, i, entries, clock, st).1; out.Listed? ==> SortedByDigest(out.entries)
    decreases |names| - i
  {
    if i == |names| {
      SortSorts(entries);
    } else if st.atFile(i) {
      if names[i] !in s.files {
        ScanComesSorted(o, s, names, i + 1, entries, clock, st);
      } else {
        var dropped := s.files - {names[i]};
        match OpenFile(o, s.files[names[i]])
        case None =>
          ScanComesSorted(o, State(dropped, s.counters.(corruptions := s.counters.corruptions + 1)), names, i + 1, entries, clock, st);
        case Some(e) =>
          if e.expiresAt <= clock(i) {
            ScanComesSorted(o, s.(files := dropped), names, i + 1, entries, clock, st);
          } else {
            ScanComesSorted(o, s, names, i + 1, entries + [ListingOf(e)], clock, st);
          }
      }
    }
  }

  lemma ListComesSorted(o: Options, s: State, clock: nat -> Time, st: Standing)
    ensures var out := ListStep(o, s, clock, st).1;
            out.Listed? ==>
              forall i, j :: 0 <= i < j < |out.entries| ==>
                out.entries[i].digest == out.entries[j].digest || Precedes(out.entries[i].digest, out.entries[j].digest)
  {
    ScanComesSorted(o, s, Ascending(s.files.Keys), 0, [], clock, st);
    var out := ListStep(o, s, clock, st).1;
    if out.Listed? {
      forall i, j | 0 <= i < j < |out.entries|
        ensures out.entries[i].digest == out.entries[j].digest || Precedes(out.entries[i].digest, out.entries[j].digest)
      {
        Trichotomy(out.entries[i].digest, out.entries[j].digest);
        BelowExactly(out.entries[i].digest, out.entries[j].digest);
      }
    }
  }

  /** Everything listed so far comes before the names still to be looked at. */
  predicate Ahead(entries: seq<Listing>, names: seq<string>, i: nat) {
    forall j, k :: 0 <= j < |entries| && i <= k < |names| ==> Below(entries[j].digest, names[k])
  }

  /** A name is kept and listed when it had not expired at its turn, and dropped when it had. */
  predicate Settles(m: Table, names: seq<string>, clock: nat -> Time, k: nat, after: Table, entries: seq<Listing>)
    requires k < |names| && names[k] in m
  {
    if m[names[k]].expiresAt <= clock(k) then names[k] !in after
    else names[k] in after && after[names[k]] == m[names[k]] && ListingAt(m, names[k]) in entries
  }

  /** A scan keeps what it has listed and what is not among the names still to come. */
  lemma {:induction false} ScanNarrows(m: Table, names: seq<string>, i: nat, entries: seq<Listing>, clock: nat -> Time, st: Standing)
    requires i <= |names|
    ensures var r := TableScan(m, names, i, entries, clock, st);
            && (forall n :: n in r.0 ==> n in m && r.0[n] == m[n])
            && (forall n :: n in m && n !in names[i..] ==> n in r.0)
            && (r.1.Listed? ==> forall x :: x in entries ==> x in r.1.entries)
    decreases |names| - i
  {
    SortKeepsElements(entries);
    if i < |names| && st.atFile(i) {
      assert names[i..] == [names[i]] + names[i + 1..];
      if names[i] !in m {
        ScanNarrows(m, names, i + 1, entries, clock, st);
      } else if m[names[i]].expiresAt <= clock(i) {
        ScanNarrows(m - {names[i]}, names, i + 1, entries, clock, st);
      } else {
        ScanNarrows(m, names, i + 1, entries + [ListingAt(m, names[i])], clock, st);
      }
    }
  }

  lemma {:induction false} ScanSorts(m: Table, names: seq<string>, i: nat, entries: seq<Listing>, clock: nat -> Time, st: Standing)
    requires i <= |names| && StrictlyAscending(names)
    requires StrictlyAscending(Digests(entries)) && Ahead(entries, names, i)
    ensures var r := TableScan(m, names, i, entries, clock, st); r.1.Listed? ==> StrictlyAscending(Digests(r.1.entries))
    decreases |names| - i
  {
    AscendingStays(entries);
    if i < |names| && st.atFile(i) {
      if names[i] !in m {
        ScanSorts(m, names, i + 1, entries, clock, st);
      } else if m[names[i]].expiresAt <= clock(i) {
        ScanSorts(m - {names[i]}, names, i + 1, entries, clock, st);
      } else {
        var more := entries + [ListingAt(m, names[i])];
        assert Digests(more) == Digests(entries) + [names[i]];
        ScanSorts(m, names, i + 1, more, clock, st);
      }
    }
  }

  lemma LaterNamesDiffer(names: seq<string>, i: nat)
    requires i < |names| && StrictlyAscending(names)
    ensures names[i] !in names[i + 1..]
  {
    forall k | i < k < |names|
      ensures names[k] != names[i]
    {
      Trichotomy(names[i], names[k]);
    }
  }

  lemma {:induction false} ScanSettles(m: Table, names: seq<string>, i: nat, entries: seq<Listing>,
                                       clock: nat -> Time, st: Standing, k: nat)
    requires i <= k < |names| && StrictlyAscending(names) && names[k] in m
    ensures var r := TableScan(m, names, i, entries, clock, st);
            r.1.Listed? ==> Settles(m, names, clock, k, r.0, r.1.entries)
    decreases |names| - i
  {
    if st.atFile(i) {
      var name := names[i];
      LaterNamesDiffer(names, i);
      if name !in m {
        ScanSettles(m, names, i + 1, entries, clock, st, k);
      } else {
        var expired := m[name].expiresAt <= clock(i);
        var next, more := if expired then m - {name} else m, if expired then entries else entries + [ListingAt(m, name)];
        if k == i {
          ScanNarrows(next, names, i + 1, more, clock, st);
        } else {
          assert names[k] == names[i + 1..][k - i - 1];
          ScanSettles(next, names, i + 1, more, clock, st, k);
        }
      }
    }
  }

  /** What a scan lists it keeps. */
  lemma {:induction false} ScanListsHeld(m: Table, names: seq<string>, i: nat, entries: seq<Listing>,
                                         clock: nat -> Time, st: Standing)
    requires i <= |names| && StrictlyAscending(names)
    requires forall x :: x in entries ==> IsHeld(m, x) && x.digest !in names[i..]
    ensures var r := TableScan(m, names, i, entries, clock, st); r.1.Listed? ==> forall x :: x in r.1.entries ==> IsHeld(r.0, x)
    decreases |names| - i
  {
    SortKeepsElements(entries);
    if i < |names| && st.atFile(i) {
      LaterNamesDiffer(names, i);
      assert names[i..] == [names[i]] + names[i + 1..];
      if names[i] !in m {
        ScanListsHeld(m, names, i + 1, entries, clock, st);
      } else if m[names[i]].expiresAt <= clock(i) {
        ScanListsHeld(m - {names[i]}, names, i + 1, entries, clock, st);
      } else {
        ScanListsHeld(m, names, i + 1, entries + [ListingAt(m, names[i])], clock, st);
      }
    }
  }

  /** A finished List returns, in ascending order of digest, the entries that had not expired at their turn, and keeps only those. */
  lemma ListIsComplete(o: Options, m: Table, clock: nat -> Time, st: Standing)
    ensures var r := TableStep(o, m, List(clock), st);
            var names := Ascending(m.Keys);
            r.1.Listed? ==>
              && Ascend(Digests(r.1.entries))
              && (forall x :: x in r.1.entries ==> IsHeld(r.0, x))
              && Elements(names) == m.Keys
              && (forall k :: 0 <= k < |names| ==> names[k] in m && Settles(m, names, clock, k, r.0, r.1.entries))
  {
    var names := Ascending(m.Keys);
    AscendingLists(m.Keys);
    assert forall k :: 0 <= k < |names| ==> names[k] in Elements(names);
    ScanSorts(m, names, 0, [], clock, st);
    if st.atStart && st.atLock {
      var r := TableScan(m, names, 0, [], clock, st);
      if r.1.Listed? {
        AscendExactly(Digests(r.1.entries));
      }
    }
    ScanListsHeld(m, names, 0, [], clock, st);
    forall k | 0 <= k < |names| && st.atStart && st.atLock
      ensures var r := TableScan(m, names, 0, [], clock, st); r.1.Listed? ==> Settles(m, names, clock, k, r.0, r.1.entries)
    {
      ScanSettles(m, names, 0, [], clock, st, k);
    }
  }

  // ---------------------------------------------------------------- any directory to start from

  /** Some files of a directory, unchanged. */
  predicate Within(part: Directory, whole: Directory) {
    forall n :: n in part ==> n in whole && part[n] == whole[n]
  }

  lemma WithinSize(part: Directory, whole: Directory)
    requires Within(part, whole)
    ensures |part| <= |whole|
  {
    Cardinality.SubsetSize(part.Keys, whole.Keys);
    assert |part| == |part.Keys| && |whole| == |whole.Keys|;
  }

  /** A scan only removes files, and never one of the cache's own before it expired. */
  lemma {:induction false} ScanKeeps(o: Options, s: State, names: seq<string>, i: nat, entries: seq<Listing>,
                                     clock: nat -> Time, st: Standing)
    requires i <= |names|
    ensures var t := Scan(o, s, names, i, entries, clock, st).0;
            && Within(t.files, s.files)
            && forall n :: n in s.files && n !in t.files ==>
                 OpenFile(o, s.files[n]).None? || exists j :: 0 <= j < |names| && s.files[n].content.envelope.expiresAt <= clock(j)
    decreases |names| - i
  {
    if i < |names| && st.atFile(i) {
      if names[i] !in s.files {
        ScanKeeps(o, s, names, i + 1, entries, clock, st);
      } else {
        var dropped := s.files - {names[i]};
        match OpenFile(o, s.files[names[i]])
        case None =>
          ScanKeeps(o, State(dropped, s.counters.(corruptions := s.counters.corruptions + 1)), names, i + 1, entries, clock, st);
        case Some(e) =>
          if e.expiresAt <= clock(i) {
            ScanKeeps(o, s.(files := dropped), names, i + 1, entries, clock, st);
          } else {
            ScanKeeps(o, s, names, i + 1, entries + [ListingOf(e)], clock, st);
          }
      }
    }
  }

  lemma {:induction false} DropKeeps(s: State, names: seq<string>, i: nat, st: Standing)
    requires i <= |names|
    ensures Within(Drop(s, names, i, st).0.files, s.files)
    decreases |names| - i
  {
    if i < |names| && st.atFile(i) {
      DropKeeps(s.(files := s.files - {names[i]}), names, i + 1, st);
    }
  }

  /** No step takes a directory over the bound. */
  lemma StepBounded(o: Options, s: State, op: Op, st: Standing)
    requires |s.files| <= o.maxEntries
    ensures |Step(o, s, op, st).0.files| <= o.maxEntries
  {
    var t := Step(o, s, op, st).0;
    match op
    case Get(key, now) => WithinSize(t.files, s.files);
    case Put(key, value, ttls, now) =>
      var p := Prepare(o, key, value, ttls, now);
      if p.Ok? {
        AddedSize(s.files, p.value.digest, SealedFile(o, p.value));
      }
    case Remove(key) => WithinSize(t.files, s.files);
    case List(clock) =>
      ScanKeeps(o, s, Ascending(s.files.Keys), 0, [], clock, st);
      WithinSize(t.files, s.files);
    case Purge =>
      DropKeeps(s, Ascending(s.files.Keys), 0, st);
      WithinSize(t.files, s.files);
  }

  lemma AddedSize(files: Directory, name: string, f: File)
    ensures |files[name := f]| == if name in files then |files| else |files| + 1
  {
    assert files[name := f].Keys == files.Keys + {name};
    assert |files[name := f]| == |files[name := f].Keys| && |files| == |files.Keys|;
    if name in files {
      assert files.Keys + {name} == files.Keys;
    }
  }

  /** The number of files never exceeds the bound in any run that starts within it. */
  lemma {:induction false} RunBounded(o: Options, s: State, requests: seq<Request>)
    requires |s.files| <= o.maxEntries
    ensures |Run(o, s, requests).0.files| <= o.maxEntries
    decreases requests
  {
    if requests != [] {
      StepBounded(o, s, requests[0].op, requests[0].st);
      RunBounded(o, Step(o, s, requests[0].op, requests[0].st).0, requests[1..]);
    }
  }

  /** The scan reaches the file of this name and finds it expired. */
  ghost predicate DropsExpired(names: seq<string>, name: string, expiresAt: Time, clock: nat -> Time, st: Standing) {
    exists k :: 0 <= k < |names| && names[k] == name && expiresAt <= clock(k) && forall j :: 0 <= j <= k ==> st.atFile(j)
  }

  /** The purge reaches the file of this name. */
  ghost predicate Drops(names: seq<string>, name: string, st: Standing) {
    exists k :: 0 <= k < |names| && names[k] == name && forall j :: 0 <= j <= k ==> st.atFile(j)
  }

  /** The operation goes through and writes or removes this entry, or looks at it after its expiry. */
  ghost predicate Disturbs(o: Options, s: State, op: Op, st: Standing, name: string, expiresAt: Time) {
    && st.atStart && st.atLock
    && match op
       case Get(key, now) => FileName(o, key) == name && Validates(o, o.normalize(key)) && expiresAt <= now
       case Put(key, value, ttls, now) => FileName(o, key) == name && st.underLock && Prepare(o, key, value, ttls, now).Ok?
       case Remove(key) => FileName(o, key) == name && Validates(o, o.normalize(key))
       case List(clock) => DropsExpired(Ascending(s.files.Keys), name, expiresAt, clock, st)
       case Purge => Drops(Ascending(s.files.Keys), name, st)
  }

  lemma {:induction false} ScanSpares(o: Options, s: State, names: seq<string>, i: nat, entries: seq<Listing>,
                                      clock: nat -> Time, st: Standing, name: string)
    requires i <= |names| && name in s.files && WellFiled(o, name, s.files[name])
    requires forall j :: 0 <= j < i ==> st.atFile(j)
    ensures var t := Scan(o, s, names, i, entries, clock, st).0;
            name in t.files ==> t.files[name] == s.files[name]
    ensures !DropsExpired(names, name, s.files[name].content.envelope.expiresAt, clock, st) ==>
              name in Scan(o, s, names, i, entries, clock, st).0.files
    decreases |names| - i
  {
    if i < |names| && st.atFile(i) {
      var e := s.files[name].content.envelope;
      if names[i] !in s.files {
        ScanSpares(o, s, names, i + 1, entries, clock, st, name);
      } else {
        var dropped := s.files - {names[i]};
        match OpenFile(o, s.files[names[i]])
        case None =>
          ScanSpares(o, State(dropped, s.counters.(corruptions := s.counters.corruptions + 1)), names, i + 1, entries, clock, st, name);
        case Some(other) =>
          if other.expiresAt <= clock(i) {
            if names[i] != name {
              ScanSpares(o, s.(files := dropped), names, i + 1, entries, clock, st, name);
            } else {
              assert DropsExpired(names, name, e.expiresAt, clock, st);
              ScanKeeps(o, s.(files := dropped), names, i + 1, entries, clock, st);
            }
          } else {
            ScanSpares(o, s, names, i + 1, entries + [ListingOf(other)], clock, st, name);
          }
      }
    }
  }

  lemma {:induction false} DropSpares(s: State, names: seq<string>, i: nat, st: Standing, name: string)
    requires i <= |names| && name in s.files
    requires forall j :: 0 <= j < i ==> st.atFile(j)
    ensures !Drops(names, name, st) ==> name in Drop(s, names, i, st).0.files
    decreases |names| - i
  {
    if i < |names| && st.atFile(i) {
      if names[i] != name {
        DropSpares(s.(files := s.files - {names[i]}), names, i + 1, st, name);
      } else {
        assert Drops(names, name, st);
      }
    }
  }

  /** An operation that does not disturb an entry leaves its file as it is, if Get accepts that at all. */
  lemma QuietKeeps(o: Options, s: State, op: Op, st: Standing, name: string)
    requires name in s.files && WellFiled(o, name, s.files[name])
    requires !Disturbs(o, s, op, st, name, s.files[name].content.envelope.expiresAt)
    ensures var t := Step(o, s, op, st).0; name in t.files && t.files[name] == s.files[name]
  {
    match op
    case Put(key, value, ttls, now) => PreparedIsWellFiled(o, key, value, ttls, now);
    case List(clock) =>
      if st.atStart && st.atLock {
        ScanSpares(o, s, Ascending(s.files.Keys), 0, [], clock, st, name);
      }
    case Purge =>
      if st.atStart && st.atLock {
        DropSpares(s, Ascending(s.files.Keys), 0, st, name);
        DropKeeps(s, Ascending(s.files.Keys), 0, st);
      }
    case _ =>
  }

  /** Whatever the file holds, such an operation does not write it. */
  lemma QuietWritesNothing(o: Options, s: State, op: Op, st: Standing, name: string, expiresAt: Time)
    requires !Disturbs(o, s, op, st, name, expiresAt)
    ensures var t := Step(o, s, op, st).0; name in t.files ==> name in s.files && t.files[name] == s.files[name]
  {
    match op
    case Put(key, value, ttls, now) => PreparedIsWellFiled(o, key, value, ttls, now);
    case List(clock) => ScanKeeps(o, s, Ascending(s.files.Keys), 0, [], clock, st);
    case Purge => DropKeeps(s, Ascending(s.files.Keys), 0, st);
    case _ =>
  }

  /** No operation of the run disturbs this entry, each judged in the state it finds. */
  ghost predicate QuietRun(o: Options, s: State, requests: seq<Request>, name: string, expiresAt: Time)
    decreases requests
  {
    requests != [] ==>
      && !Disturbs(o, s, requests[0].op, requests[0].st, name, expiresAt)
      && QuietRun(o, Step(o, s, requests[0].op, requests[0].st).0, requests[1..], name, expiresAt)
  }

  lemma {:induction false} QuietRunKeeps(o: Options, s: State, requests: seq<Request>, name: string)
    requires name in s.files && WellFiled(o, name, s.files[name])
    requires QuietRun(o, s, requests, name, s.files[name].content.envelope.expiresAt)
    ensures var t := Run(o, s, requests).0; name in t.files && t.files[name] == s.files[name]
    decreases requests
  {
    if requests != [] {
      QuietKeeps(o, s, requests[0].op, requests[0].st, name);
      QuietRunKeeps(o, Step(o, s, requests[0].op, requests[0].st).0, requests[1..], name);
    }
  }

  lemma {:induction false} QuietRunWritesNothing(o: Options, s: State, requests: seq<Request>, name: string, expiresAt: Time)
    requires QuietRun(o, s, requests, name, expiresAt)
    ensures var t := Run(o, s, requests).0; name in t.files ==> name in s.files && t.files[name] == s.files[name]
    decreases requests
  {
    if requests != [] {
      QuietWritesNothing(o, s, requests[0].op, requests[0].st, name, expiresAt);
      QuietRunWritesNothing(o, Step(o, s, requests[0].op, requests[0].st).0, requests[1..], name, expiresAt);
    }
  }

  /**
   Get returns the last unexpired Set: whatever the directory held before and whatever else is done
   meanwhile, until some operation goes through that writes the entry again, removes it or sees it expired;
   and it does so if and only if the key of the Set is settled.
   */
  lemma LastSetIsReturnedExactly(o: Options, s: State, key: Key, value: Bytes, ttls: seq<int>, now: Time, st: Standing,
                                 requests: seq<Request>, again: Key, later: Time, st': Standing)
    requires PutStep(o, s, key, value, ttls, now, st).1 == Done
    requires FileName(o, again) == FileName(o, key) && Validates(o, o.normalize(again))
    requires later < now + Ttl(o, ttls).value && st'.atStart && st'.atLock
    requires QuietRun(o, PutStep(o, s, key, value, ttls, now, st).0, requests, FileName(o, key), now + Ttl(o, ttls).value)
    ensures var out := GetStep(o, Run(o, PutStep(o, s, key, value, ttls, now, st).0, requests).0, again, later, st').1;
            && (out.Found? <==> Settled(o, key))
            && (out.Found? ==> out.value == o.sanitize(o.sanitize(value)))
  {
    var p, name := PutStep(o, s, key, value, ttls, now, st).0, FileName(o, key);
    PreparedIsWellFiled(o, key, value, ttls, now);
    QuietRunWritesNothing(o, p, requests, name, now + Ttl(o, ttls).value);
    if Settled(o, key) {
      QuietRunKeeps(o, p, requests, name);
    }
  }

  // ---------------------------------------------------------------- what is opened, removed and counted

  /** A file opens exactly when it is regular, not too large, sealed, of this version and filed under its key's digest. */
  lemma OpensExactly(o: Options, f: File)
    ensures OpenFile(o, f).Some? <==>
              && f.regular && f.size <= 4 * o.maxValueBytes + 524_352 && f.content.Sealed?
              && f.content.envelope.version == "v2" && f.content.envelope.digest != ""
              && f.content.envelope.digest == Digest(o, f.content.envelope.key)
    ensures OpenFile(o, f).Some? ==> OpenFile(o, f).value == f.content.envelope
  {
  }

  /** Remove takes away exactly the file of its key, and counts it if it was there. */
  lemma RemovesExactly(o: Options, s: State, key: Key, st: Standing)
    ensures var (t, out) := RemoveStep(o, s, key, st);
            var name := FileName(o, key);
            && (out == Done <==> st.atStart && st.atLock && o.valid(o.normalize(o.normalize(key))))
            && (out == Refused(InvalidKey) <==> st.atStart && !o.valid(o.normalize(o.normalize(key))))
            && (out != Done ==> t == s && (out == Refused(InvalidKey) || out == Refused(Cancelled)))
            && (out == Done && name != "" ==> t.files == s.files - {name})
            && (out == Done && name == "" ==> t == s)
            && t.counters == s.counters.(removes := t.counters.removes)
            && t.counters.removes == s.counters.removes + (if out == Done && name != "" && name in s.files then 1 else 0)
  {
    var name := FileName(o, key);
    if name !in s.files {
      assert s.files - {name} == s.files;
    }
  }

  /** The files that were dropped and did not open. */
  function CorruptDropped(o: Options, before: Directory, after: Directory): set<string> {
    set n | n in before && n !in after && OpenFile(o, before[n]).None?
  }

  lemma {:induction false} ScanCounts(o: Options, s: State, names: seq<string>, i: nat, entries: seq<Listing>,
                                      clock: nat -> Time, st: Standing)
    requires i <= |names|
    ensures var t := Scan(o, s, names, i, entries, clock, st).0;
            t.counters == s.counters.(corruptions := s.counters.corruptions + |CorruptDropped(o, s.files, t.files)|)
    decreases |names| - i
  {
    var t := Scan(o, s, names, i, entries, clock, st).0;
    if i == |names| || !st.atFile(i) {
      assert CorruptDropped(o, s.files, t.files) == {};
    } else if names[i] !in s.files {
      ScanCounts(o, s, names, i + 1, entries, clock, st);
    } else {
      var dropped := s.files - {names[i]};
      match OpenFile(o, s.files[names[i]])
      case None =>
        var s1 := State(dropped, s.counters.(corruptions := s.counters.corruptions + 1));
        ScanCounts(o, s1, names, i + 1, entries, clock, st);
        ScanKeeps(o, s1, names, i + 1, entries, clock, st);
        assert CorruptDropped(o, s.files, t.files) == CorruptDropped(o, dropped, t.files) + {names[i]};
      case Some(e) =>
        if e.expiresAt <= clock(i) {
          ScanCounts(o, s.(files := dropped), names, i + 1, entries, clock, st);
          assert CorruptDropped(o, s.files, t.files) == CorruptDropped(o, dropped, t.files);
        } else {
          ScanCounts(o, s, names, i + 1, entries + [ListingOf(e)], clock, st);
        }
    }
  }

  lemma {:induction false} DropCountsNothing(s: State, names: seq<string>, i: nat, st: Standing)
    requires i <= |names|
    ensures Drop(s, names, i, st).0.counters == s.counters
    decreases |names| - i
  {
    if i < |names| && st.atFile(i) {
      DropCountsNothing(s.(files := s.files - {names[i]}), names, i + 1, st);
    }
  }

  function Tick(yes: bool): nat {
    if yes then 1 else 0
  }

  /** What each operation adds to the statistics, told by its answer and the files it dropped. */
  lemma CountsExactly(o: Options, s: State, op: Op, st: Standing)
    ensures var (t, out) := Step(o, s, op, st);
            t.counters == Counters(
              s.counters.hits + Tick(out.Found?),
              s.counters.misses + Tick(op.Get? && (out == Refused(Miss) || out == Refused(Corrupt))),
              s.counters.sets + Tick(op.Put? && out == Done),
              s.counters.removes + Tick(op.Remove? && out == Done && FileName(o, op.key) != "" && FileName(o, op.key) in s.files),
              s.counters.corruptions + if op.List? then |CorruptDropped(o, s.files, t.files)| else Tick(op.Get? && out == Refused(Corrupt)))
  {
    match op
    case Remove(key) => RemovesExactly(o, s, key, st);
    case List(clock) =>
      var t := Step(o, s, op, st).0;
      if st.atStart && st.atLock {
        ScanCounts(o, s, Ascending(s.files.Keys), 0, [], clock, st);
        ScanFinds(o, s, Ascending(s.files.Keys), 0, [], clock, st);
      } else {
        assert CorruptDropped(o, s.files, t.files) == {};
      }
    case Purge =>
      if st.atStart && st.atLock {
        DropCountsNothing(s, Ascending(s.files.Keys), 0, st);
        DropAnswers(s, Ascending(s.files.Keys), 0, st);
      }
    case _ =>
  }

  lemma {:induction false} ScanFinds(o: Options, s: State, names: seq<string>, i: nat, entries: seq<Listing>,
                                     clock: nat -> Time, st: Standing)
    requires i <= |names|
    ensures var out := Scan(o, s, names, i, entries, clock, st).1;
            (out.Listed? <==> forall j :: i <= j < |names| ==> st.atFile(j)) && (!out.Listed? ==> out == Refused(Cancelled))
    decreases |names| - i
  {
    if i < |names| && st.atFile(i) {
      if names[i] !in s.files {
        ScanFinds(o, s, names, i + 1, entries, clock, st);
      } else {
        var dropped := s.files - {names[i]};
        match OpenFile(o, s.files[names[i]])
        case None =>
          ScanFinds(o, State(dropped, s.counters.(corruptions := s.counters.corruptions + 1)), names, i + 1, entries, clock, st);
        case Some(e) =>
          if e.expiresAt <= clock(i) {
            ScanFinds(o, s.(files := dropped), names, i + 1, entries, clock, st);
          } else {
            ScanFinds(o, s, names, i + 1, entries + [ListingOf(e)], clock, st);
          }
      }
    }
  }

  lemma {:induction false} DropAnswers(s: State, names: seq<string>, i: nat, st: Standing)
    requires i <= |names|
    ensures var (t, out) := Drop(s, names, i, st);
            && (out == Done <==> forall j :: i <= j < |names| ==> st.atFile(j)) && (out != Done ==> out == Refused(Cancelled))
            && (out == Done ==> forall n :: n in t.files <==> n in s.files && n !in names[i..])
    decreases |names| - i
  {
    if i < |names| && st.atFile(i) {
      assert names[i..] == [names[i]] + names[i + 1..];
      DropAnswers(s.(files := s.files - {names[i]}), names, i + 1, st);
    }
  }

  /** A Purge that finishes leaves nothing, and it finishes exactly when its context stands throughout. */
  lemma PurgesExactly(s: State, st: Standing)
    ensures var (t, out) := PurgeStep(s, st);
            && (out == Done <==> st.atStart && st.atLock && forall i :: 0 <= i < |s.files| ==> st.atFile(i))
            && (out == Done ==> t.files == map[]) && (out != Done ==> out == Refused(Cancelled))
  {
    AscendingLists(s.files.Keys);
    ListsAsMany(s.files.Keys);
    DropAnswers(s, Ascending(s.files.Keys), 0, st);
    forall n | n in s.files
      ensures n in Ascending(s.files.Keys)[0..]
    {
      assert n in Elements(Ascending(s.files.Keys));
    }
    var (t, out) := PurgeStep(s, st);
    assert out == Done ==> t.files.Keys == {};
  }

  /** A List finishes exactly when its context stands throughout. */
  lemma ListsExactly(o: Options, s: State, clock: nat -> Time, st: Standing)
    ensures var out := ListStep(o, s, clock, st).1;
            && (out.Listed? <==> st.atStart && st.atLock && forall i :: 0 <= i < |s.files| ==> st.atFile(i))
            && (!out.Listed? ==> out == Refused(Cancelled))
  {
    ListsAsMany(s.files.Keys);
    ScanFinds(o, s, Ascending(s.files.Keys), 0, [], clock, st);
  }

  // ---------------------------------------------------------------- the limit counts expired entries

  predicate LiveFile(o: Options, f: File, now: Time) {
    OpenFile(o, f).Some? && f.content.envelope.expiresAt > now
  }

  function LiveFiles(o: Options, files: Directory, now: Time): set<string> {
    set n | n in files && LiveFile(o, files[n], now)
  }

  /** Set is refused for the limit although fewer entries than that are live. */
  predicate RefusedTooSoon(o: Options, s: State, out: Outcome, now: Time) {
    out == Refused(LimitReached) && |LiveFiles(o, s.files, now)| < o.maxEntries
  }

  /** In a directory within the bound that is: the entry is new, the directory is full and something in it is not live. */
  lemma RefusedTooSoonInBounds(o: Options, s: State, key: Key, value: Bytes, ttls: seq<int>, now: Time, st: Standing)
    requires Prepare(o, key, value, ttls, now).Ok? && FileName(o, key) != "" && st.atStart && st.atLock && st.underLock
    requires |s.files| <= o.maxEntries
    ensures RefusedTooSoon(o, s, PutStep(o, s, key, value, ttls, now, st).1, now) <==>
              && FileName(o, key) !in s.files && |s.files| == o.maxEntries
              && exists n :: n in s.files && !LiveFile(o, s.files[n], now)
  {
    PreparedIsWellFiled(o, key, value, ttls, now);
    LiveAll(o, s.files, now);
  }

  lemma LiveAll(o: Options, files: Directory, now: Time)
    ensures |LiveFiles(o, files, now)| <= |files|
    ensures |LiveFiles(o, files, now)| == |files| <==> forall n :: n in files ==> LiveFile(o, files[n], now)
  {
    var live := LiveFiles(o, files, now);
    Cardinality.SubsetSize(live, files.Keys);
    if n :| n in files && !LiveFile(o, files[n], now) {
      Cardinality.SubsetSize(live, files.Keys - {n});
    } else {
      assert live == files.Keys;
    }
  }

  /**
   A Set that passes every other check is refused too soon if and only if its entry is new and the files
   reach the limit while the live ones do not.
   */
  lemma RefusedTooSoonExactly(o: Options, s: State, key: Key, value: Bytes, ttls: seq<int>, now: Time, st: Standing)
    requires Prepare(o, key, value, ttls, now).Ok? && FileName(o, key) != "" && st.atStart && st.atLock && st.underLock
    ensures RefusedTooSoon(o, s, PutStep(o, s, key, value, ttls, now, st).1, now) <==>
              FileName(o, key) !in s.files && |s.files| >= o.maxEntries && |LiveFiles(o, s.files, now)| < o.maxEntries
  {
    PreparedIsWellFiled(o, key, value, ttls, now);
  }

  /** What a finished scan leaves among the names it looked at is live. */
  lemma {:induction false} ScanLeavesLive(o: Options, s: State, names: seq<string>, i: nat, entries: seq<Listing>,
                                          clock: nat -> Time, st: Standing, now: Time)
    requires i <= |names| && forall k :: 0 <= k < |names| ==> now <= clock(k)
    ensures var (t, out) := Scan(o, s, names, i, entries, clock, st);
            out.Listed? ==> forall k :: i <= k < |names| && names[k] in t.files ==> LiveFile(o, t.files[names[k]], now)
    decreases |names| - i
  {
    if i < |names| && st.atFile(i) {
      if names[i] !in s.files {
        ScanLeavesLive(o, s, names, i + 1, entries, clock, st, now);
        ScanKeeps(o, s, names, i + 1, entries, clock, st);
      } else {
        var dropped := s.files - {names[i]};
        match OpenFile(o, s.files[names[i]])
        case None =>
          var s1 := State(dropped, s.counters.(corruptions := s.counters.corruptions + 1));
          ScanLeavesLive(o, s1, names, i + 1, entries, clock, st, now);
          ScanKeeps(o, s1, names, i + 1, entries, clock, st);
        case Some(e) =>
          if e.expiresAt <= clock(i) {
            ScanLeavesLive(o, s.(files := dropped), names, i + 1, entries, clock, st, now);
            ScanKeeps(o, s.(files := dropped), names, i + 1, entries, clock, st);
          } else {
            ScanLeavesLive(o, s, names, i + 1, entries + [ListingOf(e)], clock, st, now);
            ScanKeeps(o, s, names, i + 1, entries + [ListingOf(e)], clock, st);
          }
      }
    }
  }

  /** An instant that none of the first `n` readings precedes. */
  function Soonest(clock: nat -> Time, n: nat): (r: Time)
    ensures forall k :: 0 <= k < n ==> r <= clock(k)
  {
    if n == 0 then 0
    else
      var r := Soonest(clock, n - 1);
      if clock(n - 1) < r then clock(n - 1) else r
  }

  /** A finished List that comes before the expiry drops an entry just set if and only if decoding changed the key's digest. */
  lemma ListDropsExactly(o: Options, s: State, key: Key, value: Bytes, ttls: seq<int>, now: Time, st: Standing,
                         clock: nat -> Time, st': Standing)
    requires PutStep(o, s, key, value, ttls, now, st).1 == Done
    requires ListStep(o, PutStep(o, s, key, value, ttls, now, st).0, clock, st').1.Listed?
    requires forall k :: clock(k) < now + Ttl(o, ttls).value
    ensures FileName(o, key) !in ListStep(o, PutStep(o, s, key, value, ttls, now, st).0, clock, st').0.files <==>
              Digest(o, o.reread(o.normalize(key))) != FileName(o, key)
  {
    var p, name := PutStep(o, s, key, value, ttls, now, st).0, FileName(o, key);
    var names := Ascending(p.files.Keys);
    AscendingLists(p.files.Keys);
    assert name in Elements(names);
    var k :| 0 <= k < |names| && names[k] == name;
    ScanLeavesLive(o, p, names, 0, [], clock, st', Soonest(clock, |names|));
    ScanKeeps(o, p, names, 0, [], clock, st');
  }

  /** Right after a finished List whose clock had reached `now`, no Set at `now` is refused too soon. */
  lemma ListMakesRoom(o: Options, s: State, clock: nat -> Time, st: Standing,
                      key: Key, value: Bytes, ttls: seq<int>, now: Time, st': Standing)
    requires ListStep(o, s, clock, st).1.Listed? && forall k :: 0 <= k < |s.files| ==> now <= clock(k)
    ensures var t := ListStep(o, s, clock, st).0; !RefusedTooSoon(o, t, PutStep(o, t, key, value, ttls, now, st').1, now)
  {
    var names, t := Ascending(s.files.Keys), ListStep(o, s, clock, st).0;
    AscendingLists(s.files.Keys);
    ListsAsMany(s.files.Keys);
    ScanLeavesLive(o, s, names, 0, [], clock, st, now);
    ScanKeeps(o, s, names, 0, [], clock, st);
    forall n | n in t.files
      ensures LiveFile(o, t.files[n], now)
    {
      assert n in Elements(names);
      var k :| 0 <= k < |names| && names[k] == n;
    }
    LiveAll(o, t.files, now);
  }

  lemma {:induction false} ListsAsMany(s: set<string>)
    ensures |Ascending(s)| == |s|
    decreases |s|
  {
    if s != {} {
      LeastExists(s);
      ListsAsMany(s - {Ascending(s)[0]});
    }
  }

  /** One entry is allowed and the only one there has expired. */
  const TIGHT := Options(1, 10, 5, (k: Key) => k, (k: Key) => true, (k: Key) => "k" + k.text, (v: Bytes) => v,
                         (e: Envelope) => true, (e: Envelope) => 0, (k: Key) => k)

  /** In a run from an empty directory a Set is refused though nothing in the directory is live. */
  lemma LimitMayRefuseTooSoon(st: Standing)
    requires st.atStart && st.atLock && st.underLock
    ensures var (s, first) := Step(TIGHT, NEW_CACHE, Put(Key("a"), [], [], 0), st);
            && first == Done
            && LiveFiles(TIGHT, s.files, 5) == {}
            && Step(TIGHT, s, Put(Key("b"), [], [], 5), st).1 == Refused(LimitReached)
  {
    var s := Step(TIGHT, NEW_CACHE, Put(Key("a"), [], [], 0), st).0;
    assert FileName(TIGHT, Key("a")) == "ka" && FileName(TIGHT, Key("b")) == "kb";
    assert "ka"[1] != "kb"[1];
    assert s.files.Keys == {"ka"};
    assert |s.files| == |s.files.Keys|;
  }
}
