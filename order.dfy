/** The key order of sort.Strings and the sorted enumeration of a set of
    keys. Strings are compared character by character on code points;
    for UTF-8 text this is the same order as Go's byte-wise comparison. */
module Order {

  /** a sorts strictly before b: a is a proper prefix of b, or a has the
      smaller character at the first position where they differ. */
  predicate Less(a: string, b: string)
    decreases |a|
  {
    |b| > 0 && (|a| == 0 || a[0] < b[0] || (a[0] == b[0] && Less(a[1..], b[1..])))
  }

  predicate LessEq(a: string, b: string)
  {
    a == b || Less(a, b)
  }

  lemma {:induction false} LessIrreflexive(a: string)
    ensures !Less(a, a)
  {
    if |a| > 0 {
      LessIrreflexive(a[1..]);
    }
  }

  lemma {:induction false} LessTransitive(a: string, b: string, c: string)
    requires Less(a, b) && Less(b, c)
    ensures Less(a, c)
  {
    if |a| > 0 && a[0] == b[0] && b[0] == c[0] {
      LessTransitive(a[1..], b[1..], c[1..]);
    }
  }

  lemma {:induction false} LessTotal(a: string, b: string)
    requires a != b
    ensures Less(a, b) || Less(b, a)
  {
    if |a| > 0 && |b| > 0 && a[0] == b[0] {
      assert a == [a[0]] + a[1..] && b == [b[0]] + b[1..];
      LessTotal(a[1..], b[1..]);
    }
  }

  lemma LessAsymmetric(a: string, b: string)
    requires Less(a, b)
    ensures !Less(b, a) && a != b
  {
    LessIrreflexive(a);
    if Less(b, a) {
      LessTransitive(a, b, a);
    }
  }

  /** The elements of a sequence, as a set. */
  ghost function Elems(s: seq<string>): set<string>
  {
    set x | x in s
  }

  /** Each neighbour is no smaller than the one before it. */
  ghost predicate SortedAdj(s: seq<string>)
  {
    forall i, j :: 0 <= i && j == i + 1 && j < |s| ==> LessEq(s[i], s[j])
  }

  ghost predicate Sorted(s: seq<string>)
  {
    forall i, j :: 0 <= i < j < |s| ==> LessEq(s[i], s[j])
  }

  ghost predicate StrictlySorted(s: seq<string>)
  {
    forall i, j :: 0 <= i < j < |s| ==> Less(s[i], s[j])
  }

  ghost predicate Distinct(s: seq<string>)
  {
    forall i, j :: 0 <= i < j < |s| ==> s[i] != s[j]
  }

  lemma {:induction false} SortedAdjIsSorted(s: seq<string>)
    requires SortedAdj(s)
    ensures Sorted(s)
  {
    if |s| > 1 {
      var t := s[1..];
      assert SortedAdj(t) by {
        forall i, j | 0 <= i && j == i + 1 && j < |t| ensures LessEq(t[i], t[j]) {
          assert t[i] == s[i + 1] && t[j] == s[j + 1];
        }
      }
      SortedAdjIsSorted(t);
      forall i, j | 0 <= i < j < |s| ensures LessEq(s[i], s[j]) {
        if i == 0 && j > 1 {
          assert LessEq(s[0], s[1]);
          assert LessEq(t[0], t[j - 1]);
          if s[0] != s[1] && s[1] != s[j] {
            LessTransitive(s[0], s[1], s[j]);
          }
        } else if i > 0 {
          assert LessEq(t[i - 1], t[j - 1]);
        }
      }
    }
  }

  /** Insertion into a sorted sequence, the step of the sort below. */
  function Insert(x: string, s: seq<string>): (r: seq<string>)
    requires SortedAdj(s)
    ensures SortedAdj(r)
    ensures multiset(r) == multiset(s) + multiset{x}
    ensures |r| > 0 && (r[0] == x || (|s| > 0 && r[0] == s[0]))
  {
    if |s| == 0 then [x]
    else if LessEq(x, s[0]) then [x] + s
    else
      LessTotal(x, s[0]);
      var t := s[1..];
      assert SortedAdj(t) by {
        forall i, j | 0 <= i && j == i + 1 && j < |t| ensures LessEq(t[i], t[j]) {
          assert t[i] == s[i + 1] && t[j] == s[j + 1];
        }
      }
      var rest := Insert(x, t);
      assert s == [s[0]] + t;
      [s[0]] + rest
  }

  /** sort.Strings: the same strings, in ascending order. */
  function Sort(s: seq<string>): (r: seq<string>)
    ensures Sorted(r)
    ensures multiset(r) == multiset(s)
  {
    if |s| == 0 then []
    else
      var rest := Sort(s[1..]);
      assert SortedAdj(rest) by {
        forall i, j | 0 <= i && j == i + 1 && j < |rest| ensures LessEq(rest[i], rest[j]) {
        }
      }
      var r := Insert(s[0], rest);
      SortedAdjIsSorted(r);
      assert s == [s[0]] + s[1..];
      r
  }

  lemma {:induction false} DistinctCount(s: seq<string>, x: string)
    requires Distinct(s)
    ensures multiset(s)[x] <= 1
  {
    if |s| > 0 {
      var t := s[1..];
      assert s == [s[0]] + t;
      assert Distinct(t) by {
        forall i, j | 0 <= i < j < |t| ensures t[i] != t[j] {
          assert t[i] == s[i + 1] && t[j] == s[j + 1];
        }
      }
      DistinctCount(t, x);
      if s[0] == x {
        assert forall k :: 0 <= k < |t| ==> t[k] == s[k + 1] != s[0];
        assert x !in t;
      }
    }
  }

  /** Sorting strings that are pairwise different gives a strictly
      ascending sequence. */
  lemma SortDistinctIsStrict(s: seq<string>, r: seq<string>)
    requires Distinct(s) && Sorted(r) && multiset(r) == multiset(s)
    ensures StrictlySorted(r)
  {
    forall i, j | 0 <= i < j < |r| ensures Less(r[i], r[j]) {
      if r[i] == r[j] {
        var v := r[i];
        assert r == r[..j] + [r[j]] + r[j + 1..];
        assert r[..j][i] == v;
        assert multiset(r)[v] >= 2;
        DistinctCount(s, v);
        assert false;
      }
    }
  }

  ghost predicate IsLeast(m: string, s: set<string>)
  {
    m in s && forall y :: y in s ==> LessEq(m, y)
  }

  lemma {:induction false} LeastExists(s: set<string>)
    requires s != {}
    ensures exists m :: IsLeast(m, s)
    decreases s
  {
    var x :| x in s;
    if s != {x} {
      var rest := s - {x};
      LeastExists(rest);
      var m :| IsLeast(m, rest);
      if Less(x, m) {
        forall y | y in s ensures LessEq(x, y) {
          if y != x && y != m {
            assert y in rest;
            LessTransitive(x, m, y);
          }
        }
        assert IsLeast(x, s);
      } else {
        LessTotal(x, m);
        assert IsLeast(m, s);
      }
    } else {
      assert IsLeast(x, s);
    }
  }

  /** The keys of s, each once, in ascending order: the order in which
      sort.Strings leaves them. */
  ghost function SortedKeys(s: set<string>): (r: seq<string>)
    ensures StrictlySorted(r)
    ensures Elems(r) == s
    ensures |r| == |s|
  {
    SortedListingExists(s);
    var r :| StrictlySorted(r) && Elems(r) == s && |r| == |s|;
    r
  }

  /** Every finite set of keys has an ascending listing: its least key,
      then the listing of the others. */
  lemma {:induction false} SortedListingExists(s: set<string>)
    ensures exists r :: StrictlySorted(r) && Elems(r) == s && |r| == |s|
    decreases s
  {
    if s == {} {
      assert StrictlySorted([]) && Elems([]) == s;
    } else {
      LeastExists(s);
      var m :| IsLeast(m, s);
      SortedListingExists(s - {m});
      var rest :| StrictlySorted(rest) && Elems(rest) == s - {m} && |rest| == |s - {m}|;
      LeastThenRest(m, s, rest);
    }
  }

  /** Putting the least key in front of the ascending listing of the
      others lists them all in ascending order. */
  lemma LeastThenRest(m: string, s: set<string>, rest: seq<string>)
    requires IsLeast(m, s)
    requires StrictlySorted(rest) && Elems(rest) == s - {m} && |rest| == |s - {m}|
    ensures StrictlySorted([m] + rest) && Elems([m] + rest) == s && |[m] + rest| == |s|
  {
    var r := [m] + rest;
    assert forall j :: 0 <= j < |rest| ==> rest[j] in Elems(rest);
    assert forall j :: 0 <= j < |rest| ==> Less(m, rest[j]);
    forall i, j | 0 <= i < j < |r| ensures Less(r[i], r[j]) {
      if i > 0 {
        assert r[i] == rest[i - 1] && r[j] == rest[j - 1];
      }
    }
    forall x ensures x in Elems(r) <==> x in s {
      assert x in r <==> x == m || x in rest;
      assert x in rest <==> x in Elems(rest);
    }
  }

  lemma ElemsEmpty(s: seq<string>)
    ensures Elems(s) == {} <==> |s| == 0
  {
    if |s| > 0 {
      assert s[0] in Elems(s);
    }
  }

  /** A strictly ascending sequence is determined by its elements. */
  lemma {:induction false} StrictlySortedUnique(a: seq<string>, b: seq<string>)
    requires StrictlySorted(a) && StrictlySorted(b) && Elems(a) == Elems(b)
    ensures a == b
    decreases |a|
  {
    ElemsEmpty(a);
    ElemsEmpty(b);
    if |a| > 0 {
      assert a[0] in Elems(b);
      assert |b| > 0;
      if a[0] != b[0] {
        assert b[0] in Elems(a);
        var i :| 0 <= i < |a| && a[i] == b[0];
        var j :| 0 <= j < |b| && b[j] == a[0];
        assert Less(a[0], a[i]) && Less(b[0], b[j]);
        LessAsymmetric(a[0], b[0]);
        assert false;
      }
      var a', b' := a[1..], b[1..];
      assert forall k :: 0 <= k < |a'| ==> Less(a[0], a'[k]);
      assert forall k :: 0 <= k < |b'| ==> Less(b[0], b'[k]);
      LessIrreflexive(a[0]);
      assert Elems(a') == Elems(a) - {a[0]} by {
        assert a == [a[0]] + a';
      }
      assert Elems(b') == Elems(b) - {b[0]} by {
        assert b == [b[0]] + b';
      }
      assert StrictlySorted(a') by {
        forall i, j | 0 <= i < j < |a'| ensures Less(a'[i], a'[j]) {
          assert a'[i] == a[i + 1] && a'[j] == a[j + 1];
        }
      }
      assert StrictlySorted(b') by {
        forall i, j | 0 <= i < j < |b'| ensures Less(b'[i], b'[j]) {
          assert b'[i] == b[i + 1] && b'[j] == b[j + 1];
        }
      }
      StrictlySortedUnique(a', b');
      assert a == [a[0]] + a' && b == [b[0]] + b';
    }
  }
}
