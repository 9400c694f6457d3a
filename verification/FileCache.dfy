/**
 The encrypted file cache: one sealed envelope per key digest in a directory, with a bound on entries,
 a bound on sizes and an expiry.

 Encryption is the pair Sealed/Garbage: what was sealed opens to what was sealed, anything else does
 not open.  Key normalization, digests, sanitizing and the encoding of envelopes are left open, and
 nothing is assumed of them: normalizing need not be idempotent, and a key need not survive its encoding.
 */
module FileCache {
  import opened Wrappers
  import opened Clock
  import opened Ordering

  type Bytes = seq<bv8>

  const KEY_VERSION := "v2"
  const ENVELOPE_OVERHEAD := 256 * 1024

  /** A version byte, a 12-byte nonce and a 16-byte tag. */
  const SEAL_OVERHEAD := 29

  datatype Key = Key(text: string)

  datatype Envelope = Envelope(version: string, digest: string, key: Key, value: Bytes, createdAt: Time, expiresAt: Time)

  datatype Content = Sealed(envelope: Envelope) | Garbage

  /** `regular` is false for links and other special files. */
  datatype File = File(size: nat, content: Content, regular: bool)

  /** File names without the suffix. */
  type Directory = map<string, File>

  datatype Options = Options(
    maxEntries: nat, maxValueBytes: nat, defaultTtl: int,
    normalize: Key -> Key, valid: Key -> bool, hash: Key -> string, sanitize: Bytes -> Bytes,
    encodable: Envelope -> bool, encodedLength: Envelope -> nat,
    reread: Key -> Key                 // a key after it was encoded and decoded
  )

  datatype CacheError = Cancelled | InvalidKey | TooLarge | InvalidTtl | Unencodable | LimitReached | Miss | Corrupt

  datatype Listing = Listing(digest: string, key: Key, size: nat, createdAt: Time, expiresAt: Time)

  datatype Counters = Counters(hits: nat, misses: nat, sets: nat, removes: nat, corruptions: nat)

  /** When the caller's context still stands: at the start, on acquiring the lock, under the lock, before each file. */
  datatype Standing = Standing(atStart: bool, atLock: bool, underLock: bool, atFile: nat -> bool)

  // ---------------------------------------------------------------- keys and bounds

  /** A key is validated in normal form. */
  predicate Validates(o: Options, k: Key) {
    o.valid(o.normalize(k))
  }

  /** The digest of a key: its normal form is hashed, unless that does not validate. */
  function Digest(o: Options, k: Key): string {
    if Validates(o, o.normalize(k)) then o.hash(o.normalize(k)) else ""
  }

  /** Every operation normalizes the key it is given and then looks under the digest of that. */
  function FileName(o: Options, key: Key): string {
    Digest(o, o.normalize(key))
  }

  function MaxPlaintext(o: Options): nat {
    o.maxValueBytes * 2 + ENVELOPE_OVERHEAD
  }

  function MaxCiphertext(o: Options): nat {
    MaxPlaintext(o) * 2 + 64
  }

  // ---------------------------------------------------------------- reading

  /** The envelope in a file, or None when the file is corrupt. */
  function OpenFile(o: Options, f: File): Option<Envelope> {
    if !f.regular || f.size > MaxCiphertext(o) || f.content.Garbage? then None
    else
      var e := f.content.envelope;
      if e.version != KEY_VERSION || e.digest == "" || Digest(o, e.key) != e.digest then None else Some(e)
  }

  /** An entry read for a key: the value, or why not; any failure but absence removes the file. */
  function ReadEntry(o: Options, files: Directory, k: Key, now: Time): (Directory, Result<Bytes, CacheError>) {
    var name := Digest(o, k);
    if name == "" || name !in files then (files, Err(Miss))
    else
      match OpenFile(o, files[name])
      case None => (files - {name}, Err(Corrupt))
      case Some(e) =>
        if e.digest != name || Digest(o, o.normalize(e.key)) != name then (files - {name}, Err(Corrupt))
        else if e.expiresAt <= now then (files - {name}, Err(Miss))
        else if |e.value| > o.maxValueBytes then (files - {name}, Err(Corrupt))
        else (files, Ok(e.value))
  }

  // ---------------------------------------------------------------- operations

  datatype Op =
    | Get(key: Key, now: Time)
    | Put(key: Key, value: Bytes, ttls: seq<int>, now: Time)
    | Remove(key: Key)
    | List(clock: nat -> Time)
    | Purge

  datatype Outcome = Found(value: Bytes) | Done | Listed(entries: seq<Listing>) | Refused(error: CacheError)

  datatype State = State(files: Directory, counters: Counters)

  function CountRead(c: Counters, r: Result<Bytes, CacheError>): Counters {
    match r
    case Ok(_) => c.(hits := c.hits + 1)
    case Err(Corrupt) => c.(corruptions := c.corruptions + 1, misses := c.misses + 1)
    case Err(_) => c.(misses := c.misses + 1)
  }

  function GetStep(o: Options, s: State, key: Key, now: Time, st: Standing): (State, Outcome) {
    var k := o.normalize(key);
    if !st.atStart then (s, Refused(Cancelled))
    else if !Validates(o, k) then (s, Refused(InvalidKey))
    else if !st.atLock then (s, Refused(Cancelled))
    else
      var (files, r) := ReadEntry(o, s.files, k, now);
      (State(files, CountRead(s.counters, r)),
       match r case Ok(v) => Found(o.sanitize(v)) case Err(e) => Refused(e))
  }

  function Ttl(o: Options, ttls: seq<int>): Option<int> {
    if ttls == [] then Some(o.defaultTtl)
    else if |ttls| > 1 || ttls[0] < 0 then None
    else if ttls[0] > 0 then Some(ttls[0])
    else Some(o.defaultTtl)
  }

  function Enclose(o: Options, k: Key, value: Bytes, now: Time, ttl: int): Envelope {
    Envelope(KEY_VERSION, Digest(o, k), k, value, now, now + ttl)
  }

  /** The envelope to be written, or why not; nothing of this looks at the directory. */
  function Prepare(o: Options, key: Key, value: Bytes, ttls: seq<int>, now: Time): Result<Envelope, CacheError> {
    var k, v, ttl := o.normalize(key), o.sanitize(value), Ttl(o, ttls);
    if !Validates(o, k) then Err(InvalidKey)
    else if |v| > o.maxValueBytes then Err(TooLarge)
    else if ttl.None? then Err(InvalidTtl)
    else
      var e := Enclose(o, k, v, now, ttl.value);
      if !o.encodable(e) then Err(Unencodable)
      else if o.encodedLength(e) > MaxPlaintext(o) then Err(TooLarge)
      else Ok(e)
  }

  /** A written file opens to the envelope that is decoded from it. */
  function SealedFile(o: Options, e: Envelope): File {
    File(o.encodedLength(e) + SEAL_OVERHEAD, Sealed(e.(key := o.reread(e.key))), true)
  }

  function PutStep(o: Options, s: State, key: Key, value: Bytes, ttls: seq<int>, now: Time, st: Standing): (State, Outcome) {
    if !st.atStart then (s, Refused(Cancelled))
    else
      match Prepare(o, key, value, ttls, now)
      case Err(e) => (s, Refused(e))
      case Ok(e) =>
        if !st.atLock || !st.underLock then (s, Refused(Cancelled))
        else if e.digest == "" then (s, Refused(InvalidKey))
        else if e.digest !in s.files && |s.files| >= o.maxEntries then (s, Refused(LimitReached))
        else
          (State(s.files[e.digest := SealedFile(o, e)], s.counters.(sets := s.counters.sets + 1)), Done)
  }

  function RemoveStep(o: Options, s: State, key: Key, st: Standing): (State, Outcome) {
    var k := o.normalize(key);
    if !st.atStart then (s, Refused(Cancelled))
    else if !Validates(o, k) then (s, Refused(InvalidKey))
    else if !st.atLock then (s, Refused(Cancelled))
    else if Digest(o, k) == "" || Digest(o, k) !in s.files then (s, Done)
    else (State(s.files - {Digest(o, k)}, s.counters.(removes := s.counters.removes + 1)), Done)
  }

  function ListingOf(e: Envelope): Listing {
    Listing(e.digest, e.key, |e.value|, e.createdAt, e.expiresAt)
  }

  function InsertListing(x: Listing, entries: seq<Listing>): seq<Listing> {
    if entries == [] || !Below(entries[0].digest, x.digest) then [x] + entries else [entries[0]] + InsertListing(x, entries[1..])
  }

  /** The entries by digest. */
  function SortListings(entries: seq<Listing>): seq<Listing> {
    if entries == [] then [] else InsertListing(entries[0], SortListings(entries[1..]))
  }

  /** List the files from the `i`-th name on, removing the corrupt and the expired. */
  function Scan(o: Options, s: State, names: seq<string>, i: nat, entries: seq<Listing>, clock: nat -> Time, st: Standing): (State, Outcome)
    requires i <= |names|
    decreases |names| - i
  {
    if i == |names| then (s, Listed(SortListings(entries)))
    else if !st.atFile(i) then (s, Refused(Cancelled))
    else if names[i] !in s.files then Scan(o, s, names, i + 1, entries, clock, st)
    else
      var dropped := s.files - {names[i]};
      match OpenFile(o, s.files[names[i]])
      case None =>
        Scan(o, State(dropped, s.counters.(corruptions := s.counters.corruptions + 1)), names, i + 1, entries, clock, st)
      case Some(e) =>
        if e.expiresAt <= clock(i) then Scan(o, s.(files := dropped), names, i + 1, entries, clock, st)
        else Scan(o, s, names, i + 1, entries + [ListingOf(e)], clock, st)
  }

  function ListStep(o: Options, s: State, clock: nat -> Time, st: Standing): (State, Outcome) {
    if !st.atStart || !st.atLock then (s, Refused(Cancelled))
    else Scan(o, s, Ascending(s.files.Keys), 0, [], clock, st)
  }

  /** Remove the files from the `i`-th name on. */
  function Drop(s: State, names: seq<string>, i: nat, st: Standing): (State, Outcome)
    requires i <= |names|
    decreases |names| - i
  {
    if i == |names| then (s, Done)
    else if !st.atFile(i) then (s, Refused(Cancelled))
    else Drop(s.(files := s.files - {names[i]}), names, i + 1, st)
  }

  function PurgeStep(s: State, st: Standing): (State, Outcome) {
    if !st.atStart || !st.atLock then (s, Refused(Cancelled))
    else Drop(s, Ascending(s.files.Keys), 0, st)
  }

  function Step(o: Options, s: State, op: Op, st: Standing): (State, Outcome) {
    match op
    case Get(key, now) => GetStep(o, s, key, now, st)
    case Put(key, value, ttls, now) => PutStep(o, s, key, value, ttls, now, st)
    case Remove(key) => RemoveStep(o, s, key, st)
    case List(clock) => ListStep(o, s, clock, st)
    case Purge => PurgeStep(s, st)
  }

  // ---------------------------------------------------------------- the cache

  class Cache {
    const options: Options
    var files: Directory
    var hits: nat
    var misses: nat
    var sets: nat
    var removes: nat
    var corruptions: nat

    function View(): State
      reads this
    {
      State(files, Counters(hits, misses, sets, removes, corruptions))
    }

    constructor (o: Options, directory: Directory)
      ensures options == o && View() == State(directory, Counters(0, 0, 0, 0, 0))
    {
      options, files := o, directory;
      hits, misses, sets, removes, corruptions := 0, 0, 0, 0, 0;
    }

    /** Open a file that is there, removing it when it is corrupt. */
    method ReadEnvelope(name: string) returns (e: Result<Envelope, CacheError>)
      modifies `files
      ensures name !in old(files) ==> e == Err(Miss) && files == old(files)
      ensures name in old(files) ==>
                match OpenFile(options, old(files)[name])
                case None => e == Err(Corrupt) && files == old(files) - {name}
                case Some(sealed) => e == Ok(sealed) && files == old(files)
    {
      if name !in files {
        return Err(Miss);
      }
      var f := files[name];
      if !f.regular || f.size > MaxCiphertext(options) || f.content.Garbage? {
        files := files - {name};
        return Err(Corrupt);
      }
      var envelope := f.content.envelope;
      if envelope.version != KEY_VERSION || envelope.digest == "" || Digest(options, envelope.key) != envelope.digest {
        files := files - {name};
        return Err(Corrupt);
      }
      e := Ok(envelope);
    }

    method ReadKey(k: Key, now: Time) returns (r: Result<Bytes, CacheError>)
      modifies `files
      ensures (files, r) == ReadEntry(options, old(files), k, now)
    {
      var name := Digest(options, k);
      if name == "" {
        return Err(Miss);
      }
      var sealed := ReadEnvelope(name);
      if sealed.Err? {
        return Err(sealed.error);
      }
      var e := sealed.value;
      if e.digest != name || e.version != KEY_VERSION || Digest(options, options.normalize(e.key)) != name {
        files := files - {name};
        return Err(Corrupt);
      }
      if e.expiresAt <= now {
        files := files - {name};
        return Err(Miss);
      }
      if |e.value| > options.maxValueBytes {
        files := files - {name};
        return Err(Corrupt);
      }
      r := Ok(e.value);
    }

    method GetValue(key: Key, now: Time, st: Standing) returns (out: Outcome)
      modifies this
      ensures (View(), out) == GetStep(options, old(View()), key, now, st)
    {
      if !st.atStart {
        return Refused(Cancelled);
      }
      var k := options.normalize(key);
      if !Validates(options, k) {
        return Refused(InvalidKey);
      }
      if !st.atLock {
        return Refused(Cancelled);
      }
      var r := ReadKey(k, now);
      if r.Ok? {
        hits := hits + 1;
        return Found(options.sanitize(r.value));
      }
      if r.error == Corrupt {
        corruptions := corruptions + 1;
      }
      misses := misses + 1;
      out := Refused(r.error);
    }

    method PutValue(key: Key, value: Bytes, ttls: seq<int>, now: Time, st: Standing) returns (out: Outcome)
      modifies this
      ensures (View(), out) == PutStep(options, old(View()), key, value, ttls, now, st)
    {
      if !st.atStart {
        return Refused(Cancelled);
      }
      var k := options.normalize(key);
      if !Validates(options, k) {
        return Refused(InvalidKey);
      }
      var v := options.sanitize(value);
      if |v| > options.maxValueBytes {
        return Refused(TooLarge);
      }
      var ttl := options.defaultTtl;
      if |ttls| > 1 {
        return Refused(InvalidTtl);
      }
      if |ttls| == 1 {
        if ttls[0] < 0 {
          return Refused(InvalidTtl);
        }
        if ttls[0] > 0 {
          ttl := ttls[0];
        }
      }
      var e := Enclose(options, k, v, now, ttl);
      if !options.encodable(e) {
        return Refused(Unencodable);
      }
      if options.encodedLength(e) > MaxPlaintext(options) {
        return Refused(TooLarge);
      }
      if !st.atLock || !st.underLock {
        return Refused(Cancelled);
      }
      if e.digest == "" {
        return Refused(InvalidKey);
      }
      if e.digest !in files {
        var count := |files|;
        if count >= options.maxEntries {
          return Refused(LimitReached);
        }
      }
      files := files[e.digest := SealedFile(options, e)];
      sets := sets + 1;
      out := Done;
    }

    method RemoveKey(key: Key, st: Standing) returns (out: Outcome)
      modifies this
      ensures (View(), out) == RemoveStep(options, old(View()), key, st)
    {
      if !st.atStart {
        return Refused(Cancelled);
      }
      var k := options.normalize(key);
      if !Validates(options, k) {
        return Refused(InvalidKey);
      }
      if !st.atLock {
        return Refused(Cancelled);
      }
      if Digest(options, k) == "" || Digest(options, k) !in files {
        return Done;
      }
      files := files - {Digest(options, k)};
      removes := removes + 1;
      out := Done;
    }

    method ListEntries(clock: nat -> Time, st: Standing) returns (out: Outcome)
      modifies this
      ensures (View(), out) == ListStep(options, old(View()), clock, st)
    {
      if !st.atStart || !st.atLock {
        return Refused(Cancelled);
      }
      var names := Ascending(files.Keys);
      var entries: seq<Listing> := [];
      for i := 0 to |names|
        invariant Scan(options, View(), names, i, entries, clock, st) == Scan(options, old(View()), names, 0, [], clock, st)
      {
        if !st.atFile(i) {
          return Refused(Cancelled);
        }
        var sealed := ReadEnvelope(names[i]);
        if sealed.Err? {
          if sealed.error == Corrupt {
            corruptions := corruptions + 1;
          }
          continue;
        }
        if sealed.value.expiresAt <= clock(i) {
          files := files - {names[i]};
          continue;
        }
        entries := entries + [ListingOf(sealed.value)];
      }
      out := Listed(SortListings(entries));
    }

    method PurgeAll(st: Standing) returns (out: Outcome)
      modifies this
      ensures (View(), out) == PurgeStep(old(View()), st)
    {
      if !st.atStart || !st.atLock {
        return Refused(Cancelled);
      }
      var names := Ascending(files.Keys);
      for i := 0 to |names|
        invariant Drop(View(), names, i, st) == Drop(old(View()), names, 0, st)
      {
        if !st.atFile(i) {
          return Refused(Cancelled);
        }
        files := files - {names[i]};
      }
      out := Done;
    }
  }
}
