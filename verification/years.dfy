/** Ordering of detected fiscal years: `years.sort((a, b) => b - a)`. */
module Years {

  predicate NoDuplicates(s: seq<int>) {
    forall i, j :: 0 <= i < j < |s| ==> s[i] != s[j]
  }

  /** Newest first, each year once. */
  predicate StrictlyDescending(s: seq<int>) {
    forall i, j :: 0 <= i < j < |s| ==> s[i] > s[j]
  }

  predicate Descending(s: seq<int>) {
    forall i, j :: 0 <= i < j < |s| ==> s[i] >= s[j]
  }

  /** `x` placed before the first element it is not below. */
  function Insert(x: int, s: seq<int>): (r: seq<int>)
    ensures multiset(r) == multiset(s) + multiset{x}
  {
    if |s| == 0 || x >= s[0] then [x] + s
    else
      assert s == [s[0]] + s[1..];
      [s[0]] + Insert(x, s[1..])
  }

  /** Every element of `Insert(x, s)` is `x` or an element of `s`. */
  lemma InsertMembers(x: int, s: seq<int>, y: int)
    requires y in Insert(x, s)
    ensures y == x || y in s
  {
    assert y in multiset(Insert(x, s));
  }

  /** Inserting into a descending list keeps it descending. */
  lemma {:induction false} InsertDescending(x: int, s: seq<int>)
    requires Descending(s)
    ensures Descending(Insert(x, s))
  {
    if |s| > 0 && x < s[0] {
      InsertDescending(x, s[1..]);
      var rest := Insert(x, s[1..]);
      forall i | 0 <= i < |rest| ensures rest[i] <= s[0] {
        InsertMembers(x, s[1..], rest[i]);
      }
    }
  }

  /** The years sorted newest first, as `sort` with comparator `b - a` leaves them. */
  function SortDescending(s: seq<int>): (r: seq<int>)
    ensures Descending(r)
    ensures multiset(r) == multiset(s)
  {
    if |s| == 0 then []
    else
      assert s == [s[0]] + s[1..];
      var sorted := SortDescending(s[1..]);
      InsertDescending(s[0], sorted);
      Insert(s[0], sorted)
  }

  /** Inserting a year not yet present keeps a list strictly descending. */
  lemma {:induction false} InsertStrict(x: int, s: seq<int>)
    requires StrictlyDescending(s)
    requires x !in s
    ensures StrictlyDescending(Insert(x, s))
  {
    if |s| > 0 && x < s[0] {
      InsertStrict(x, s[1..]);
      var rest := Insert(x, s[1..]);
      forall i | 0 <= i < |rest| ensures rest[i] < s[0] {
        InsertMembers(x, s[1..], rest[i]);
      }
    }
  }

  /** Sorting a list of distinct years yields them newest first, strictly,
      with exactly the same members. */
  lemma {:induction false} SortDistinct(s: seq<int>)
    requires NoDuplicates(s)
    ensures StrictlyDescending(SortDescending(s))
    ensures forall y :: y in SortDescending(s) <==> y in s
  {
    var r := SortDescending(s);
    if |s| > 0 {
      SortDistinct(s[1..]);
      var sorted := SortDescending(s[1..]);
      assert s[0] !in s[1..] by {
        forall k | 0 <= k < |s[1..]| ensures s[1..][k] != s[0] {
          assert s[1..][k] == s[k + 1];
        }
      }
      InsertStrict(s[0], sorted);
    }
    forall y ensures y in r <==> y in s {
      assert y in r <==> y in multiset(r);
      assert y in s <==> y in multiset(s);
    }
  }
}
