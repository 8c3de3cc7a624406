/** The JavaScript array operations the server relies on, over sequences. */
module Seqs {

  /** No element occurs twice. */
  ghost predicate NoDup<T>(s: seq<T>) {
    forall i, j :: 0 <= i < j < |s| ==> s[i] != s[j]
  }

  /** `s` with the element at index `i` taken out, as `s.splice(i, 1)` leaves it:
      one element fewer, every other element kept in its relative order. */
  function Without<T>(s: seq<T>, i: nat): (r: seq<T>)
    requires i < |s|
    ensures |r| == |s| - 1
    ensures forall j :: 0 <= j < |r| ==> r[j] == s[if j < i then j else j + 1]
  {
    s[..i] + s[i+1..]
  }

  /** Splicing takes out exactly one occurrence of the element at `i`. */
  lemma WithoutMultiset<T>(s: seq<T>, i: nat)
    requires i < |s|
    ensures multiset(Without(s, i)) + multiset{s[i]} == multiset(s)
  {
    assert s == s[..i] + [s[i]] + s[i+1..];
  }

  /** The index of the first occurrence of `x`, or -1 (`Array.prototype.indexOf`,
      which compares objects by identity). */
  function IndexOf<T(==)>(s: seq<T>, x: T): (r: int)
    ensures -1 <= r < |s|
    ensures 0 <= r ==> s[r] == x && forall j :: 0 <= j < r ==> s[j] != x
    ensures r == -1 <==> x !in s
  {
    if |s| == 0 then -1
    else if s[0] == x then 0
    else
      var k := IndexOf(s[1..], x);
      if k == -1 then -1 else k + 1
  }

  /** Splicing out one element of a duplicate-free sequence removes exactly that value. */
  lemma WithoutNoDup<T>(s: seq<T>, i: nat)
    requires i < |s| && NoDup(s)
    ensures NoDup(Without(s, i))
    ensures forall y :: y in Without(s, i) <==> y in s && y != s[i]
  {
    var r := Without(s, i);
    forall y
      ensures y in r <==> y in s && y != s[i]
    {
      if y in s && y != s[i] {
        var j :| 0 <= j < |s| && s[j] == y;
        assert r[if j < i then j else j - 1] == y;
      }
    }
  }
}
