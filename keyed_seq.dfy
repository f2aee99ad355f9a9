/** The two list operations the holdings stores apply by key: finding the
    first element with a key (Array.prototype.findIndex) and dropping every
    element with a key (Array.prototype.filter). The element's key is given
    as a function, so both stores share them. */
module KeyedSeq {

  /** The index of the first element of s whose key is k, or -1 if there is none. */
  function Position<T>(s: seq<T>, key: T -> string, k: string): (r: int)
    ensures -1 <= r < |s|
    ensures r == -1 <==> forall i :: 0 <= i < |s| ==> key(s[i]) != k
    ensures 0 <= r ==> key(s[r]) == k && forall i :: 0 <= i < r ==> key(s[i]) != k
  {
    if |s| == 0 then -1
    else if key(s[0]) == k then 0
    else
      var r := Position(s[1..], key, k);
      if r == -1 then -1 else r + 1
  }

  /** The elements of s whose key differs from k, in their order in s. */
  function Without<T>(s: seq<T>, key: T -> string, k: string): (r: seq<T>)
    ensures |r| <= |s|
    ensures forall i :: 0 <= i < |r| ==> r[i] in s && key(r[i]) != k
    ensures forall i :: 0 <= i < |s| && key(s[i]) != k ==> s[i] in r
  {
    if |s| == 0 then []
    else
      var rest := Without(s[1..], key, k);
      if key(s[0]) == k then rest else [s[0]] + rest
  }

  /** Filtering distributes over concatenation: the survivors keep their
      relative order. */
  lemma {:induction false} WithoutAppend<T>(a: seq<T>, b: seq<T>, key: T -> string, k: string)
    ensures Without(a + b, key, k) == Without(a, key, k) + Without(b, key, k)
  {
    if |a| == 0 {
      assert a + b == b;
    } else {
      assert (a + b)[1..] == a[1..] + b;
      WithoutAppend(a[1..], b, key, k);
    }
  }

  /** Each element whose key is not k survives as often as it occurs in s;
      an element whose key is k does not survive at all. */
  lemma {:induction false} WithoutMultiplicity<T>(s: seq<T>, key: T -> string, k: string, x: T)
    ensures multiset(Without(s, key, k))[x] == if key(x) == k then 0 else multiset(s)[x]
  {
    if |s| > 0 {
      var rest := Without(s[1..], key, k);
      WithoutMultiplicity(s[1..], key, k, x);
      assert s == [s[0]] + s[1..];
      assert multiset(s) == multiset([s[0]]) + multiset(s[1..]);
      if key(s[0]) != k {
        assert multiset([s[0]] + rest) == multiset([s[0]]) + multiset(rest);
      }
    }
  }

  /** Filtering by a key that no element has leaves the list as it is. */
  lemma {:induction false} WithoutAbsent<T>(s: seq<T>, key: T -> string, k: string)
    requires forall i :: 0 <= i < |s| ==> key(s[i]) != k
    ensures Without(s, key, k) == s
  {
    if |s| > 0 {
      WithoutAbsent(s[1..], key, k);
      assert s == [s[0]] + s[1..];
    }
  }

  /** Filtering twice by the same key removes nothing more. */
  lemma {:induction false} WithoutIdempotent<T>(s: seq<T>, key: T -> string, k: string)
    ensures Without(Without(s, key, k), key, k) == Without(s, key, k)
  {
    var r := Without(s, key, k);
    WithoutAbsent(r, key, k);
  }
}
