/**
 Keys the cache accepts and cannot read back: the normalization of an endpoint that has no scheme, and the
 encoding of text that is not valid, each with the condition under which its keys are settled.
 */
module CacheWitnesses {
  import opened FileCache
  import opened CacheTheorems
  import opened Strings

  // ---------------------------------------------------------------- endpoints

  function DropSlashes(s: string): string {
    if s != "" && s[|s| - 1] == '/' then DropSlashes(s[..|s| - 1]) else s
  }

  /** An endpoint without scheme and with nothing to redact: white space goes first, slashes last. */
  function NormalEndpoint(s: string): string {
    DropSlashes(Trim(s))
  }

  /** Keys are endpoints, all of them valid, and no two hash alike. */
  const ENDPOINTS := Options(1, 10, 5, (k: Key) => Key(NormalEndpoint(k.text)), (k: Key) => true, (k: Key) => "k" + k.text,
                             (v: Bytes) => v, (e: Envelope) => true, (e: Envelope) => 0, (k: Key) => k)

  lemma {:induction false} TrimLeftStarts(s: string)
    ensures TrimLeft(s) != "" ==> !Space(TrimLeft(s)[0])
  {
    if s != "" && Space(s[0]) {
      TrimLeftStarts(s[1..]);
    }
  }

  lemma {:induction false} TrimRightCuts(s: string)
    ensures TrimRight(s) <= s
    ensures TrimRight(s) == s <==> s == "" || !Space(s[|s| - 1])
  {
    if s != "" && Space(s[|s| - 1]) {
      TrimRightCuts(s[..|s| - 1]);
    }
  }

  lemma {:induction false} DropSlashesCuts(s: string)
    ensures DropSlashes(s) <= s
    ensures var d := DropSlashes(s); d == "" || d[|d| - 1] != '/'
  {
    if s != "" && s[|s| - 1] == '/' {
      DropSlashesCuts(s[..|s| - 1]);
    }
  }

  /** A normalized endpoint is normal exactly when it does not end in white space. */
  lemma NormalExactly(s: string)
    ensures var n := NormalEndpoint(s); NormalEndpoint(n) == n <==> n == "" || !Space(n[|n| - 1])
  {
    var n := NormalEndpoint(s);
    TrimLeftStarts(s);
    TrimRightCuts(TrimLeft(s));
    DropSlashesCuts(Trim(s));
    assert TrimLeft(n) == n;
    TrimRightCuts(n);
    DropSlashesCuts(Trim(n));
  }

  /** An endpoint is settled exactly when normalizing it twice leaves no white space at its end. */
  lemma EndpointSettledExactly(s: string)
    ensures var n := NormalEndpoint(NormalEndpoint(s)); Settled(ENDPOINTS, Key(s)) <==> n == "" || !Space(n[|n| - 1])
  {
    var n := NormalEndpoint(NormalEndpoint(s));
    NormalExactly(NormalEndpoint(s));
    assert FileName(ENDPOINTS, Key(s)) == "k" + n;
    assert FileName(ENDPOINTS, Key(NormalEndpoint(s))) == "k" + NormalEndpoint(n);
    assert n == ("k" + n)[1..] && NormalEndpoint(n) == ("k" + NormalEndpoint(n))[1..];
  }

  lemma EndpointLosesSpaces()
    ensures NormalEndpoint("f / /") == "f / " && NormalEndpoint("f / ") == "f " && NormalEndpoint("f ") == "f"
  {
    assert TrimRight("f / /") == "f / /" && "f / /"[..4] == "f / ";
    assert DropSlashes("f / ") == "f / ";
    assert "f / "[..3] == "f /" && TrimRight("f /") == "f /" && "f /"[..2] == "f ";
    assert DropSlashes("f ") == "f ";
    assert "f "[..1] == "f" && TrimRight("f") == "f" && DropSlashes("f") == "f";
  }

  /** A run from an empty directory: a Set is done, and the Get that follows reports it corrupt and removes it. */
  lemma SetMayBeLost(st: Standing)
    requires st.atStart && st.atLock && st.underLock
    ensures var (s, first) := Step(ENDPOINTS, NEW_CACHE, Put(Key("f / /"), [], [], 0), st);
            var (t, second) := Step(ENDPOINTS, s, Get(Key("f / /"), 1), st);
            first == Done && second == Refused(Corrupt) && "kf " in s.files && "kf " !in t.files && t.counters.corruptions == 1
  {
    EndpointLosesSpaces();
    EndpointSettledExactly("f / /");
    assert FileName(ENDPOINTS, Key("f / /")) == "kf ";
    CorruptExactly(ENDPOINTS, NEW_CACHE, Key("f / /"), [], [], 0, st, Key("f / /"), 1, st);
  }

  // ---------------------------------------------------------------- text that is not valid

  /** Stands for a byte that is not part of any character. */
  const BROKEN: char := '\U{10FFFF}'

  /** Encoding writes an escape in place of such a byte. */
  function Escaped(s: string): string {
    if s == "" then "" else (if s[0] == BROKEN then "\\ufffd" else [s[0]]) + Escaped(s[1..])
  }

  /** Decoding turns the escape into the replacement character. */
  function Replaced(s: string): string {
    seq(|s|, i requires 0 <= i < |s| => if s[i] == BROKEN then '\U{FFFD}' else s[i])
  }

  /** Keys are any text, and the encoded text is what is hashed. */
  const ENCODED := Options(1, 10, 5, (k: Key) => k, (k: Key) => true, (k: Key) => "k" + Escaped(k.text), (v: Bytes) => v,
                           (e: Envelope) => true, (e: Envelope) => 0, (k: Key) => Key(Replaced(k.text)))

  lemma {:induction false} EscapedGrows(s: string)
    ensures |Escaped(s)| >= |s|
    ensures BROKEN !in s ==> Escaped(s) == s
    ensures BROKEN in s ==> |Escaped(s)| > |s|
  {
    if s != "" {
      EscapedGrows(s[1..]);
      assert s == [s[0]] + s[1..];
    }
  }

  /** A key is settled exactly when its text is valid. */
  lemma TextSettledExactly(s: string)
    ensures Settled(ENCODED, Key(s)) <==> BROKEN !in s
  {
    var r := Replaced(s);
    EscapedGrows(s);
    EscapedGrows(r);
    assert |r| == |s|;
    assert FileName(ENCODED, Key(s)) == "k" + Escaped(s) && FileName(ENCODED, Key(r)) == "k" + r;
    if BROKEN !in s {
      assert r == s;
    }
  }

  /** A run from an empty directory in which the text of the key is not valid. */
  lemma TextMayBeLost(st: Standing)
    requires st.atStart && st.atLock && st.underLock
    ensures var (s, first) := Step(ENCODED, NEW_CACHE, Put(Key([BROKEN]), [], [], 0), st);
            first == Done && Step(ENCODED, s, Get(Key([BROKEN]), 1), st).1 == Refused(Corrupt)
  {
    TextSettledExactly([BROKEN]);
    assert FileName(ENCODED, Key([BROKEN])) == "k" + Escaped([BROKEN]);
    CorruptExactly(ENCODED, NEW_CACHE, Key([BROKEN]), [], [], 0, st, Key([BROKEN]), 1, st);
  }
}
