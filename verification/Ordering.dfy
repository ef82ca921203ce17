/** `ORDER BY <time>, id`: the order of a table's rows is the order of these keys. */
module Ordering {

  predicate StringLess(a: string, b: string)
  {
    b != [] && (a == [] || a[0] < b[0] || (a[0] == b[0] && StringLess(a[1..], b[1..])))
  }

  lemma {:induction false} StringLessIsStrict(a: string, b: string)
    ensures !StringLess(a, a)
    ensures !(StringLess(a, b) && StringLess(b, a))
    ensures StringLess(a, b) || StringLess(b, a) || a == b
  {
    if a != [] {
      StringLessIsStrict(a[1..], if b == [] then [] else b[1..]);
      assert a == [a[0]] + a[1..];
    }
    if b != [] {
      assert b == [b[0]] + b[1..];
    }
  }

  lemma {:induction false} StringLessIsTransitive(a: string, b: string, c: string)
    requires StringLess(a, b) && StringLess(b, c)
    ensures StringLess(a, c)
  {
    if a != [] && a[0] == b[0] && b[0] == c[0] {
      StringLessIsTransitive(a[1..], b[1..], c[1..]);
    }
  }

  datatype Key = Key(time: int, id: string)

  predicate Before(a: Key, b: Key)
  {
    a.time < b.time || (a.time == b.time && StringLess(a.id, b.id))
  }

  lemma BeforeIsStrictTotal(a: Key, b: Key)
    ensures !Before(a, a)
    ensures !(Before(a, b) && Before(b, a))
    ensures Before(a, b) || Before(b, a) || a == b
  {
    StringLessIsStrict(a.id, b.id);
  }

  lemma BeforeIsTransitive(a: Key, b: Key, c: Key)
    requires Before(a, b) && Before(b, c)
    ensures Before(a, c)
  {
    if a.time == b.time == c.time {
      StringLessIsTransitive(a.id, b.id, c.id);
    }
  }

  predicate IsFirst(k: Key, keys: set<Key>)
  {
    k in keys && forall other :: other in keys && other != k ==> Before(k, other)
  }

  lemma {:induction false} FirstIsUnique(keys: set<Key>)
    requires keys != {}
    ensures exists k :: IsFirst(k, keys)
    ensures forall k, l :: IsFirst(k, keys) && IsFirst(l, keys) ==> k == l
    decreases |keys|
  {
    var some :| some in keys;
    var rest := keys - {some};
    var first := some;
    if rest != {} {
      FirstIsUnique(rest);
      var least :| IsFirst(least, rest);
      BeforeIsStrictTotal(some, least);
      if Before(least, some) {
        first := least;
      } else {
        forall other | other in rest && other != least ensures Before(some, other) {
          BeforeIsTransitive(some, least, other);
        }
      }
    }
    assert IsFirst(first, keys);
    forall l | IsFirst(l, keys) ensures l == first {
      BeforeIsStrictTotal(l, first);
    }
  }

  ghost predicate Ascending(s: seq<Key>)
  {
    forall i, j :: 0 <= i < j < |s| ==> Before(s[i], s[j])
  }

  /** `s` lists exactly `keys`, in order: what a result set with ORDER BY must be. */
  ghost predicate Lists(s: seq<Key>, keys: set<Key>)
  {
    Ascending(s) && forall k :: k in s <==> k in keys
  }

  function Sorted(keys: set<Key>): seq<Key>
    decreases |keys|
  {
    if keys == {} then [] else
      FirstIsUnique(keys);
      var first :| IsFirst(first, keys);
      [first] + Sorted(keys - {first})
  }

  lemma {:induction false} SortedLists(keys: set<Key>)
    ensures Lists(Sorted(keys), keys) && |Sorted(keys)| == |keys|
    decreases |keys|
  {
    if keys != {} {
      FirstIsUnique(keys);
      var first :| IsFirst(first, keys);
      SortedLists(keys - {first});
      assert Sorted(keys) == [first] + Sorted(keys - {first});
    }
  }

  /** ORDER BY leaves the database no choice: any two listings of the same keys are equal. */
  lemma {:induction false} ListingIsUnique(s: seq<Key>, t: seq<Key>, keys: set<Key>)
    requires Lists(s, keys) && Lists(t, keys)
    ensures s == t
    decreases |s|
  {
    if s == [] {
      if t != [] { HeadsAgree(t, s, keys); }
    } else {
      assert s[0] in keys;
      assert t != [] && s[0] == t[0] by { HeadsAgree(s, t, keys); }
      TailLists(s, keys);
      TailLists(t, keys);
      ListingIsUnique(s[1..], t[1..], keys - {s[0]});
      assert s == [s[0]] + s[1..] && t == [t[0]] + t[1..];
    }
  }

  lemma HeadsAgree(s: seq<Key>, t: seq<Key>, keys: set<Key>)
    requires Lists(s, keys) && Lists(t, keys) && s != []
    ensures t != [] && s[0] == t[0]
  {
    assert s[0] in keys;
    var i :| 0 <= i < |t| && t[i] == s[0];
    assert t[0] in keys;
    var j :| 0 <= j < |s| && s[j] == t[0];
    BeforeIsStrictTotal(s[0], t[0]);
  }

  lemma TailLists(s: seq<Key>, keys: set<Key>)
    requires Lists(s, keys) && s != []
    ensures Lists(s[1..], keys - {s[0]})
  {
    forall k ensures k in s[1..] <==> k in keys - {s[0]} {
      if k in s[1..] {
        var i :| 0 <= i < |s| - 1 && s[1..][i] == k;
        assert s[i + 1] == k && k in s;
        BeforeIsStrictTotal(s[0], k);
      }
      if k in keys - {s[0]} {
        var i :| 0 <= i < |s| && s[i] == k;
        assert s[1..][i - 1] == k;
      }
    }
  }

  /** The order of strings is the one of their first difference; a proper prefix comes first. */
  lemma {:induction false} StringLessIsLexicographic(a: string, b: string)
    ensures StringLess(a, b) <==> (a != b && a <= b) || exists i :: IsFirstDifference(a, b, i) && a[i] < b[i]
  {
    if a != [] && b != [] && a[0] == b[0] {
      var x, y := a[1..], b[1..];
      StringLessIsLexicographic(x, y);
      assert a == [a[0]] + x && b == [b[0]] + y;
      if i :| IsFirstDifference(x, y, i) && x[i] < y[i] {
        DifferenceMoves(a, b, i);
        assert IsFirstDifference(a, b, i + 1);
      }
      if i :| IsFirstDifference(a, b, i) && a[i] < b[i] {
        DifferenceMoves(a, b, i - 1);
        assert IsFirstDifference(x, y, i - 1);
      }
    } else if a != [] && b != [] {
      assert IsFirstDifference(a, b, 0);
    }
  }

  ghost predicate IsFirstDifference(a: string, b: string, i: int)
  {
    0 <= i < |a| && i < |b| && a[i] != b[i] && a[..i] == b[..i]
  }

  lemma DifferenceMoves(a: string, b: string, i: int)
    requires a != [] && b != [] && a[0] == b[0]
    ensures IsFirstDifference(a[1..], b[1..], i) <==> i >= 0 && IsFirstDifference(a, b, i + 1)
  {
    if 0 <= i < |a| - 1 && i < |b| - 1 {
      assert a[..i + 1] == [a[0]] + a[1..][..i] && b[..i + 1] == [b[0]] + b[1..][..i];
      assert a[..i + 1][1..] == a[1..][..i] && b[..i + 1][1..] == b[1..][..i];
    }
  }

  /** ORDER BY time, id. */
  lemma BeforeOnColumns(a: Key, b: Key)
    ensures Before(a, b) <==> a.time < b.time || (a.time == b.time && StringLess(a.id, b.id))
  {
  }
}
