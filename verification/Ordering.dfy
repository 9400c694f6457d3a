/** The byte-wise order of strings, and the ascending list of a set of names. */
module Ordering {
  /** Strictly before, character by character. */
  predicate Below(a: string, b: string) {
    b != [] && (a == [] || a[0] < b[0] || (a[0] == b[0] && Below(a[1..], b[1..])))
  }

  /** The order said outright: a proper prefix, or the smaller character at the first difference. */
  predicate Precedes(a: string, b: string) {
    a < b || exists i :: 0 <= i < |a| && i < |b| && a[..i] == b[..i] && a[i] < b[i]
  }

  lemma {:induction false} BelowExactly(a: string, b: string)
    ensures Below(a, b) <==> Precedes(a, b)
  {
    if a != [] && b != [] && a[0] == b[0] {
      BelowExactly(a[1..], b[1..]);
      assert a == [a[0]] + a[1..] && b == [b[0]] + b[1..];
      if i :| 0 <= i < |a[1..]| && i < |b[1..]| && a[1..][..i] == b[1..][..i] && a[1..][i] < b[1..][i] {
        assert a[..i + 1] == [a[0]] + a[1..][..i] && b[..i + 1] == [b[0]] + b[1..][..i];
        assert a[i + 1] < b[i + 1];
      }
      if i :| 0 <= i < |a| && i < |b| && a[..i] == b[..i] && a[i] < b[i] {
        assert a[1..][..i - 1] == a[..i][1..] && b[1..][..i - 1] == b[..i][1..];
        assert a[1..][i - 1] < b[1..][i - 1];
      }
    } else if b != [] && a != [] && a[0] < b[0] {
      assert a[..0] == b[..0];
    }
  }

  /** Names come one after the other in that order. */
  predicate Ascend(a: seq<string>) {
    forall i, j :: 0 <= i < j < |a| ==> Precedes(a[i], a[j])
  }

  lemma AscendExactly(a: seq<string>)
    ensures StrictlyAscending(a) <==> Ascend(a)
  {
    forall i, j | 0 <= i < j < |a|
      ensures Below(a[i], a[j]) <==> Precedes(a[i], a[j])
    {
      BelowExactly(a[i], a[j]);
    }
  }

  lemma {:induction false} Trichotomy(a: string, b: string)
    ensures a == b || Below(a, b) || Below(b, a)
    ensures !(Below(a, b) && Below(b, a)) && (a == b ==> !Below(a, b))
  {
    if a != [] && b != [] && a[0] == b[0] {
      Trichotomy(a[1..], b[1..]);
      assert a == [a[0]] + a[1..] && b == [b[0]] + b[1..];
    }
  }

  lemma {:induction false} Transitive(a: string, b: string, c: string)
    requires Below(a, b) && Below(b, c)
    ensures Below(a, c)
  {
    if a != [] && a[0] == b[0] == c[0] {
      Transitive(a[1..], b[1..], c[1..]);
    }
  }

  predicate Least(k: string, s: set<string>) {
    k in s && forall j :: j in s && j != k ==> Below(k, j)
  }

  lemma {:induction false} LeastExists(s: set<string>)
    requires s != {}
    ensures exists k :: Least(k, s)
    decreases |s|
  {
    var x :| x in s;
    var rest := s - {x};
    if rest == {} {
      assert s == {x};
      assert Least(x, s);
    } else {
      LeastExists(rest);
      var k :| Least(k, rest);
      Trichotomy(x, k);
      if Below(x, k) {
        forall j | j in s && j != x
          ensures Below(x, j)
        {
          if j != k {
            Transitive(x, k, j);
          }
        }
        assert Least(x, s);
      } else {
        assert Least(k, s);
      }
    }
  }

  lemma LeastIsUnique(s: set<string>)
    ensures forall j, k :: Least(j, s) && Least(k, s) ==> j == k
  {
    forall j, k | Least(j, s) && Least(k, s)
      ensures j == k
    {
      Trichotomy(j, k);
    }
  }

  /** The names in ascending order. */
  function Ascending(s: set<string>): seq<string>
    decreases |s|
  {
    if s == {} then []
    else
      LeastExists(s);
      LeastIsUnique(s);
      var k :| k in s && Least(k, s);
      [k] + Ascending(s - {k})
  }

  predicate StrictlyAscending(a: seq<string>) {
    forall i, j :: 0 <= i < j < |a| ==> Below(a[i], a[j])
  }

  function Elements(a: seq<string>): set<string> {
    set k | k in a
  }

  lemma LeastThenRest(k: string, rest: seq<string>, s: set<string>)
    requires Least(k, s) && StrictlyAscending(rest) && Elements(rest) == s - {k}
    ensures StrictlyAscending([k] + rest) && Elements([k] + rest) == s
  {
    var a := [k] + rest;
    assert a[0] == k && forall x :: x in a <==> x == k || x in rest;
    assert Elements(a) == {k} + Elements(rest);
    forall i, j | 0 <= i < j < |a|
      ensures Below(a[i], a[j])
    {
      assert rest[j - 1] in Elements(rest);
    }
  }

  lemma {:induction false} AscendingLists(s: set<string>)
    ensures StrictlyAscending(Ascending(s)) && Elements(Ascending(s)) == s
    decreases |s|
  {
    if s != {} {
      var a := Ascending(s);
      LeastExists(s);
      AscendingLists(s - {a[0]});
      LeastThenRest(a[0], Ascending(s - {a[0]}), s);
    }
  }

  /** There is only one ascending list of a set. */
  lemma {:induction false} AscendingIsUnique(a: seq<string>)
    requires StrictlyAscending(a)
    ensures Ascending(Elements(a)) == a
  {
    if a == [] {
      assert Elements(a) == {};
    } else {
      var s, k, rest := Elements(a), a[0], a[1..];
      assert a[0] in s;
      assert a == [k] + rest;
      forall j | j in s && j != k
        ensures Below(k, j)
      {
        var i :| 0 <= i < |a| && a[i] == j;
      }
      assert Least(k, s);
      LeastExists(s);
      var b := Ascending(s);
      assert Least(b[0], s);
      LeastIsUnique(s);
      assert s - {k} == Elements(rest) by {
        forall x | x in s - {k}
          ensures x in rest
        {
        }
        forall x | x in rest
          ensures x in s - {k}
        {
          var i :| 0 <= i < |rest| && rest[i] == x;
          assert a[i + 1] == x && Below(k, x);
          Trichotomy(k, x);
        }
      }
      AscendingIsUnique(rest);
    }
  }
}
