/**
  The fixed catalog of syringe models and their bore diameters (millimetres,
  as the text the pump driver is given). The display names are the catalog's
  keys exactly, including the leading blank of the single-digit sizes.
 */
module SyringeCatalog {
  import opened Wrappers

  const Syringes: map<string, string> :=
    map[" 1 ml BD" := "4.699",
        " 3 ml BD" := "8.585",
        " 5 ml BD" := "11.99",
        "10 ml BD" := "14.60",
        "30 ml BD" := "21.59",
        "Freeman " := "50.00"]

  /** The entry every syringe selector shows first: the least catalog key. */
  const DefaultSyringe: string := " 1 ml BD"

  /** The entries of every syringe selector, in the order they are listed. */
  const Selector: seq<string> :=
    [" 1 ml BD", " 3 ml BD", " 5 ml BD", "10 ml BD", "30 ml BD", "Freeman "]

  /**
    Looks a syringe up by the name its selector shows: exactly the names the
    selector lists have a diameter, and it is that entry's catalog value.
   */
  function Diameter(name: string): (d: Option<string>)
    ensures d.Some? <==> name in Selector
    ensures d.Some? ==> d.value == Syringes[name]
  {
    if name in Syringes then Some(Syringes[name]) else None
  }

  /** The names a sequence lists. */
  function Elems(s: seq<string>): set<string> {
    set x | x in s
  }

  /** No name is listed twice. */
  predicate NoRepeats(s: seq<string>) {
    forall i, j :: 0 <= i < j < |s| ==> s[i] != s[j]
  }

  /** No neighbour is out of order: what `sorted` guarantees of its result. */
  predicate Ascending(s: seq<string>) {
    forall i :: 0 < i < |s| ==> !LexLess(s[i], s[i - 1])
  }

  /** Every earlier name is strictly below every later one. */
  predicate Increasing(s: seq<string>) {
    forall i, j :: 0 <= i < j < |s| ==> LexLess(s[i], s[j])
  }

  /** Lexicographic order on strings by code point, the order `sorted` uses. */
  predicate LexLess(a: string, b: string)
    decreases |a|
  {
    if |a| == 0 then |b| > 0
    else if |b| == 0 then false
    else if a[0] < b[0] then true
    else a[0] == b[0] && LexLess(a[1..], b[1..])
  }

  /** LexLess is irreflexive. */
  lemma {:induction false} LexLessIrreflexive(a: string)
    ensures !LexLess(a, a)
    decreases |a|
  {
    if |a| > 0 {
      LexLessIrreflexive(a[1..]);
    }
  }

  /** LexLess is transitive. */
  lemma {:induction false} LexLessTransitive(a: string, b: string, c: string)
    requires LexLess(a, b) && LexLess(b, c)
    ensures LexLess(a, c)
    decreases |a|
  {
    if |a| > 0 && |b| > 0 && |c| > 0 && a[0] == b[0] && b[0] == c[0] {
      LexLessTransitive(a[1..], b[1..], c[1..]);
    }
  }

  /** LexLess is total on distinct strings. */
  lemma {:induction false} LexLessTotal(a: string, b: string)
    requires a != b
    ensures LexLess(a, b) || LexLess(b, a)
    decreases |a|
  {
    if |a| > 0 && |b| > 0 && a[0] == b[0] {
      assert a == [a[0]] + a[1..] && b == [b[0]] + b[1..];
      LexLessTotal(a[1..], b[1..]);
    }
  }

  /** A list without repeats whose neighbours are in order is strictly increasing. */
  lemma {:induction false} AscendingIncreasing(s: seq<string>)
    requires Ascending(s) && NoRepeats(s)
    ensures Increasing(s)
    decreases |s|
  {
    if |s| > 1 {
      var tail := s[1..];
      assert Ascending(tail) by {
        forall i | 0 < i < |tail| ensures !LexLess(tail[i], tail[i - 1]) {
          assert tail[i] == s[i + 1] && tail[i - 1] == s[i];
        }
      }
      AscendingIncreasing(tail);
      assert !LexLess(s[1], s[0]);
      LexLessTotal(s[0], s[1]);
      forall i, j | 0 <= i < j < |s| ensures LexLess(s[i], s[j]) {
        if i > 0 {
          assert s[i] == tail[i - 1] && s[j] == tail[j - 1];
        } else if j > 1 {
          assert LexLess(tail[0], tail[j - 1]);
          LexLessTransitive(s[0], s[1], s[j]);
        }
      }
    }
  }

  /** Two strictly increasing lists of the same names are the same list. */
  lemma {:induction false} IncreasingUnique(s: seq<string>, t: seq<string>)
    requires Increasing(s) && Increasing(t) && Elems(s) == Elems(t)
    ensures s == t
    decreases |s|
  {
    ElemsEmpty(s);
    ElemsEmpty(t);
    if s != [] && t != [] {
      assert s[0] in Elems(t) && t[0] in Elems(s);
      var j :| 0 <= j < |t| && t[j] == s[0];
      var i :| 0 <= i < |s| && s[i] == t[0];
      if s[0] != t[0] {
        assert LexLess(s[0], s[i]) && LexLess(t[0], t[j]);
        LexLessTransitive(s[0], t[0], s[0]);
        LexLessIrreflexive(s[0]);
      }
      LexLessIrreflexive(s[0]);
      assert Elems(s[1..]) == Elems(s) - {s[0]} by {
        forall x ensures x in Elems(s[1..]) <==> x in Elems(s) && x != s[0] {
          if x in Elems(s[1..]) {
            var k :| 0 <= k < |s[1..]| && s[1..][k] == x;
            assert LexLess(s[0], s[k + 1]);
          }
          if x in Elems(s) && x != s[0] {
            var k :| 0 <= k < |s| && s[k] == x;
            assert s[1..][k - 1] == x;
          }
        }
      }
      assert Elems(t[1..]) == Elems(t) - {t[0]} by {
        forall x ensures x in Elems(t[1..]) <==> x in Elems(t) && x != t[0] {
          if x in Elems(t[1..]) {
            var k :| 0 <= k < |t[1..]| && t[1..][k] == x;
            assert LexLess(t[0], t[k + 1]);
          }
          if x in Elems(t) && x != t[0] {
            var k :| 0 <= k < |t| && t[k] == x;
            assert t[1..][k - 1] == x;
          }
        }
      }
      IncreasingUnique(s[1..], t[1..]);
      assert s == [s[0]] + s[1..] && t == [t[0]] + t[1..];
    }
  }

  /** Only the empty list lists no name. */
  lemma ElemsEmpty(s: seq<string>)
    ensures Elems(s) == {} <==> s == []
  {
    if s != [] {
      assert s[0] in Elems(s);
    }
  }

  /** A list whose neighbours are strictly in order is strictly increasing. */
  lemma {:induction false} ChainIncreasing(s: seq<string>)
    requires forall i :: 0 < i < |s| ==> LexLess(s[i - 1], s[i])
    ensures Increasing(s)
    decreases |s|
  {
    if |s| > 1 {
      var tail := s[1..];
      assert forall i :: 0 < i < |tail| ==> tail[i - 1] == s[i] && tail[i] == s[i + 1];
      ChainIncreasing(tail);
      forall i, j | 0 <= i < j < |s| ensures LexLess(s[i], s[j]) {
        if i > 0 {
          assert s[i] == tail[i - 1] && s[j] == tail[j - 1];
        } else if j > 1 {
          assert LexLess(tail[0], tail[j - 1]);
          LexLessTransitive(s[0], s[1], s[j]);
        }
      }
    }
  }

  /** A strictly increasing list lists no name twice. */
  lemma IncreasingNoRepeats(s: seq<string>)
    requires Increasing(s)
    ensures NoRepeats(s)
  {
    forall i, j | 0 <= i < j < |s| ensures s[i] != s[j] {
      LexLessIrreflexive(s[i]);
    }
  }

  /**
    The selector lists every catalog key once, in strictly increasing order,
    starting on DefaultSyringe, and every entry it lists has a diameter.
   */
  lemma SelectorIsSorted()
    ensures Increasing(Selector) && NoRepeats(Selector)
    ensures Elems(Selector) == Syringes.Keys
    ensures Selector[0] == DefaultSyringe
    ensures forall n :: n in Selector ==> Diameter(n).Some?
  {
    assert LexLess(Selector[0], Selector[1]) && LexLess(Selector[1], Selector[2]);
    assert LexLess(Selector[2], Selector[3]) && LexLess(Selector[3], Selector[4]);
    assert LexLess(Selector[4], Selector[5]);
    ChainIncreasing(Selector);
    IncreasingNoRepeats(Selector);
  }

  /**
    `sorted(syringes)` is the selector: any list of the catalog keys, each
    once, with no neighbour out of order, equals Selector.
   */
  lemma SortedIsSelector(t: seq<string>)
    requires Elems(t) == Syringes.Keys && NoRepeats(t) && Ascending(t)
    ensures t == Selector
  {
    AscendingIncreasing(t);
    SelectorIsSorted();
    IncreasingUnique(t, Selector);
  }

  /**
    The syringe selector lists the catalog keys in sorted order and starts on
    the first one, so the initial selection of every pump is DefaultSyringe,
    whose diameter is 4.699 mm.
   */
  lemma DefaultIsFirstSorted()
    ensures DefaultSyringe in Syringes && Syringes[DefaultSyringe] == "4.699"
    ensures forall k :: k in Syringes && k != DefaultSyringe ==> LexLess(DefaultSyringe, k)
  {
  }
}
