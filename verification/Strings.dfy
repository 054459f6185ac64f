/** Byte-wise string order, and the one sorted listing a set of strings has. */
module Strings {

  predicate Lt(a: string, b: string)
    decreases |a|
  {
    if b == "" then false
    else if a == "" then true
    else a[0] < b[0] || (a[0] == b[0] && Lt(a[1..], b[1..]))
  }

  lemma {:induction false} LtTotal(a: string, b: string)
    ensures a == b || Lt(a, b) || Lt(b, a)
    decreases |a|
  {
    if a != "" && b != "" && a[0] == b[0] {
      LtTotal(a[1..], b[1..]);
      assert a == [a[0]] + a[1..] && b == [b[0]] + b[1..];
    }
  }

  lemma {:induction false} LtIrreflexive(a: string)
    ensures !Lt(a, a)
    decreases |a|
  {
    if a != "" {
      LtIrreflexive(a[1..]);
    }
  }

  lemma {:induction false} LtTransitive(a: string, b: string, c: string)
    requires Lt(a, b) && Lt(b, c)
    ensures Lt(a, c)
    decreases |a|
  {
    if a != "" && a[0] == b[0] == c[0] {
      LtTransitive(a[1..], b[1..], c[1..]);
    }
  }

  /** Go's order of strings: a is a proper prefix of b, or at the first byte where
      they differ its byte is the smaller one. */
  lemma {:induction false} LtExactly(a: string, b: string)
    ensures Lt(a, b) <==>
              exists n: nat :: n <= |a| && n < |b| && a[..n] == b[..n] && (n == |a| || a[n] < b[n])
    decreases |a|
  {
    if a != "" && b != "" {
      LtExactly(a[1..], b[1..]);
      if n: nat :| n <= |a[1..]| && n < |b[1..]| && a[1..][..n] == b[1..][..n] && (n == |a[1..]| || a[1..][n] < b[1..][n]) {
        if a[0] == b[0] {
          assert a[..n + 1] == [a[0]] + a[1..][..n] && b[..n + 1] == [b[0]] + b[1..][..n];
        }
      }
      if n: nat :| n <= |a| && n < |b| && a[..n] == b[..n] && (n == |a| || a[n] < b[n]) {
        if n > 0 {
          assert a[0] == a[..n][0] && b[0] == b[..n][0];
          assert a[1..][..n - 1] == a[..n][1..] && b[1..][..n - 1] == b[..n][1..];
        }
      }
      if a[0] < b[0] {
        assert a[..0] == b[..0];
      }
    } else if b != "" {
      assert a[..0] == b[..0];
    }
  }

  ghost predicate Increasing(ks: seq<string>) {
    forall i, j | 0 <= i < j < |ks| :: Lt(ks[i], ks[j])
  }

  // ks lists exactly the elements of s, in order.
  ghost predicate Lists(ks: seq<string>, s: set<string>) {
    Increasing(ks) && forall k :: k in ks <==> k in s
  }

  lemma {:induction false} ListsUnique(a: seq<string>, b: seq<string>, s: set<string>)
    requires Lists(a, s) && Lists(b, s)
    ensures a == b
    decreases |a|
  {
    ListsLength(a, s);
    ListsLength(b, s);
    if a != [] {
      HeadIsLeast(a, b, s);
      ListsTail(a, s);
      ListsTail(b, s);
      ListsUnique(a[1..], b[1..], s - {a[0]});
      assert a == [a[0]] + a[1..] && b == [b[0]] + b[1..];
    }
  }

  lemma HeadIsLeast(a: seq<string>, b: seq<string>, s: set<string>)
    requires Lists(a, s) && Lists(b, s) && a != [] && b != []
    ensures a[0] == b[0]
  {
    assert a[0] in b && b[0] in a;
    if a[0] != b[0] {
      var i :| 0 < i < |b| && b[i] == a[0];
      var j :| 0 < j < |a| && a[j] == b[0];
      LtTransitive(a[0], b[0], a[0]);
      LtIrreflexive(a[0]);
    }
  }

  lemma ListsTail(a: seq<string>, s: set<string>)
    requires Lists(a, s) && a != []
    ensures Lists(a[1..], s - {a[0]})
  {
    LtIrreflexive(a[0]);
    forall k
      ensures k in a[1..] <==> k in s - {a[0]}
    {
      if k in s - {a[0]} {
        var i :| 0 <= i < |a| && a[i] == k;
        assert a[1..][i - 1] == k;
      }
    }
  }

  // sort.Strings
  function InsertSorted(k: string, ks: seq<string>): seq<string> {
    if ks == [] then [k]
    else if Lt(k, ks[0]) then [k] + ks
    else [ks[0]] + InsertSorted(k, ks[1..])
  }

  function Sort(ks: seq<string>): seq<string> {
    if ks == [] then [] else InsertSorted(ks[0], Sort(ks[1..]))
  }

  // A smaller string in front of a listing.
  lemma ListsCons(k: string, ks: seq<string>, s: set<string>)
    requires Lists(ks, s) && forall x | x in s :: Lt(k, x)
    ensures Lists([k] + ks, s + {k})
  {
    forall j | 0 <= j < |ks|
      ensures Lt(k, ks[j])
    {
      assert ks[j] in s;
    }
    forall x
      ensures x in [k] + ks <==> x in s + {k}
    {
    }
  }

  lemma {:induction false} InsertKeepsLists(k: string, ks: seq<string>, s: set<string>)
    requires Lists(ks, s) && k !in s
    ensures Lists(InsertSorted(k, ks), s + {k})
    decreases |ks|, 1
  {
    if ks == [] {
      assert s == {} by { assert forall x :: x in s ==> x in ks; }
      ListsCons(k, [], {});
    } else if Lt(k, ks[0]) {
      forall x | x in s
        ensures Lt(k, x)
      {
        var j :| 0 <= j < |ks| && ks[j] == x;
        if j > 0 {
          LtTransitive(k, ks[0], ks[j]);
        }
      }
      ListsCons(k, ks, s);
    } else {
      InsertLater(k, ks, s);
    }
  }

  lemma {:induction false} InsertLater(k: string, ks: seq<string>, s: set<string>)
    requires Lists(ks, s) && k !in s && ks != [] && !Lt(k, ks[0])
    ensures Lists(InsertSorted(k, ks), s + {k})
    decreases |ks|, 0
  {
    var rest := s - {ks[0]};
    LtTotal(k, ks[0]);
    ListsTail(ks, s);
    InsertKeepsLists(k, ks[1..], rest);
    forall x | x in rest + {k}
      ensures Lt(ks[0], x)
    {
      if x != k {
        var j :| 0 <= j < |ks| && ks[j] == x;
      }
    }
    ListsCons(ks[0], InsertSorted(k, ks[1..]), rest + {k});
    assert rest + {k} + {ks[0]} == s + {k};
  }

  ghost predicate Distinct(ks: seq<string>) {
    forall i, j | 0 <= i < j < |ks| :: ks[i] != ks[j]
  }

  lemma {:induction false} SortLists(ks: seq<string>)
    requires Distinct(ks)
    ensures Lists(Sort(ks), set k | k in ks)
  {
    if ks != [] {
      SortLists(ks[1..]);
      var s := set k | k in ks[1..];
      InsertKeepsLists(ks[0], Sort(ks[1..]), s);
      assert (set k | k in ks) == s + {ks[0]};
    }
  }

  ghost function Listing(s: set<string>): (ks: seq<string>)
    ensures Lists(ks, s)
  {
    if s == {} then []
    else
      var k :| k in s;
      InsertKeepsLists(k, Listing(s - {k}), s - {k});
      assert s - {k} + {k} == s;
      InsertSorted(k, Listing(s - {k}))
  }

  lemma {:induction false} ListsLength(ks: seq<string>, s: set<string>)
    requires Lists(ks, s)
    ensures |ks| == |s|
  {
    if ks == [] {
      assert s == {} by { assert forall x :: x in s ==> x in ks; }
    } else {
      ListsTail(ks, s);
      ListsLength(ks[1..], s - {ks[0]});
    }
  }

  function Below(s: set<string>, x: string): set<string> {
    set y | y in s && Lt(y, x)
  }

  /** The k-th of a sorted listing has exactly k smaller ones. */
  lemma {:induction false} RankInListing(ks: seq<string>, s: set<string>, k: nat)
    requires Lists(ks, s) && k < |ks|
    ensures ks[k] in s && |Below(s, ks[k])| == k
  {
    var below := Below(s, ks[k]);
    var start := set x | x in ks[..k];
    forall x
      ensures x in below <==> x in start
    {
      if x in below {
        var i :| 0 <= i < |ks| && ks[i] == x;
        if i >= k {
          LtIrreflexive(ks[k]);
          if i > k {
            LtTransitive(ks[k], ks[i], ks[k]);
          }
        }
        assert ks[..k][i] == x;
      }
      if x in start {
        var i :| 0 <= i < k && ks[..k][i] == x;
        assert ks[i] == x;
      }
    }
    assert below == start;
    ListsLength(ks[..k], start);
  }
}
