/** Python's `sorted(xs)` and `xs.sort(key=...)` for the keys the modelled
    code sorts by: a string, or a pair of strings compared component by
    component as Python compares tuples. */
module Sorting {
  import opened Text

  /** A sort key; a plain string sorts under `Key(s, "")`. */
  datatype Key = Key(primary: string, secondary: string)

  predicate KeyLe(a: Key, b: Key) {
    (a.primary != b.primary && StrLe(a.primary, b.primary))
    || (a.primary == b.primary && StrLe(a.secondary, b.secondary))
  }

  lemma KeyLeTotal(a: Key, b: Key)
    ensures KeyLe(a, b) || KeyLe(b, a)
  {
    StrLeTotal(a.primary, b.primary);
    StrLeTotal(a.secondary, b.secondary);
  }

  lemma KeyLeTrans(a: Key, b: Key, c: Key)
    requires KeyLe(a, b) && KeyLe(b, c)
    ensures KeyLe(a, c)
  {
    if a.primary != b.primary && b.primary != c.primary {
      StrLeTrans(a.primary, b.primary, c.primary);
      if a.primary == c.primary {
        StrLeAntisym(a.primary, b.primary);
      }
    } else if a.primary == b.primary && b.primary == c.primary {
      StrLeTrans(a.secondary, b.secondary, c.secondary);
    }
  }

  ghost predicate SortedBy<T>(s: seq<T>, key: T -> Key) {
    forall i, j :: 0 <= i < j < |s| ==> KeyLe(key(s[i]), key(s[j]))
  }

  /** Every element of `s` has a key at least `key(y)`. */
  ghost predicate AllAbove<T>(y: T, s: seq<T>, key: T -> Key) {
    forall i :: 0 <= i < |s| ==> KeyLe(key(y), key(s[i]))
  }

  lemma ConsSorted<T>(y: T, s: seq<T>, key: T -> Key)
    requires SortedBy(s, key) && AllAbove(y, s, key)
    ensures SortedBy([y] + s, key)
  {
    var r := [y] + s;
    forall i, j | 0 <= i < j < |r|
      ensures KeyLe(key(r[i]), key(r[j]))
    {
      if i > 0 {
        assert r[i] == s[i - 1] && r[j] == s[j - 1];
      } else {
        assert r[j] == s[j - 1];
      }
    }
  }

  /** Inserts `x` before the first element whose key is at least its own,
      so among equal keys the inserted element comes first. */
  function Insert<T>(x: T, s: seq<T>, key: T -> Key): (r: seq<T>)
    requires SortedBy(s, key)
    ensures SortedBy(r, key)
    ensures multiset(r) == multiset(s) + multiset{x}
  {
    if s == [] then [x]
    else if KeyLe(key(x), key(s[0])) then
      assert AllAbove(x, s, key) by {
        forall i | 0 <= i < |s| ensures KeyLe(key(x), key(s[i])) {
          if i > 0 { KeyLeTrans(key(x), key(s[0]), key(s[i])); }
        }
      }
      ConsSorted(x, s, key);
      [x] + s
    else
      assert s == [s[0]] + s[1..];
      var r := Insert(x, s[1..], key);
      assert AllAbove(s[0], r, key) by {
        KeyLeTotal(key(x), key(s[0]));
        forall i | 0 <= i < |r| ensures KeyLe(key(s[0]), key(r[i])) {
          assert r[i] in multiset(r);
          if r[i] != x {
            assert r[i] in multiset(s[1..]);
            var k :| 0 <= k < |s[1..]| && s[1..][k] == r[i];
            assert s[k + 1] == r[i];
          }
        }
      }
      ConsSorted(s[0], r, key);
      [s[0]] + r
  }

  /** A stable insertion sort: the result is ordered by key and holds the
      same elements as the input, each as often. */
  function SortBy<T>(s: seq<T>, key: T -> Key): (r: seq<T>)
    ensures SortedBy(r, key)
    ensures multiset(r) == multiset(s)
  {
    if s == [] then []
    else
      assert s == [s[0]] + s[1..];
      Insert(s[0], SortBy(s[1..], key), key)
  }

  function StringKey(s: string): Key {
    Key(s, "")
  }

  /** Python's `sorted(strings)`. */
  function SortStrings(s: seq<string>): (r: seq<string>)
    ensures multiset(r) == multiset(s)
    ensures forall i, j :: 0 <= i < j < |r| ==> StrLe(r[i], r[j])
  {
    var r := SortBy(s, StringKey);
    assert forall i, j :: 0 <= i < j < |r| ==> StrLe(r[i], r[j]) by {
      forall i, j | 0 <= i < j < |r| ensures StrLe(r[i], r[j]) {
        assert KeyLe(StringKey(r[i]), StringKey(r[j]));
        StrLeTotal(r[i], r[j]);
      }
    }
    r
  }
}
