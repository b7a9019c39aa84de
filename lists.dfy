/** `Array.prototype.splice(index, 1)` on a list, with JavaScript's index
    rules: a negative index counts from the end, and an index at or past the
    end removes nothing. */
module Lists {

  /** The position `splice` actually starts at for a list of length `len`. */
  function SpliceStart(len: nat, index: int): (start: nat)
    ensures start <= len
    ensures 0 <= index < len ==> start == index
    ensures 0 <= len + index && index < 0 ==> start == len + index
    ensures len + index < 0 ==> start == 0
    ensures len <= index ==> start == len
  {
    if index < 0 then (if len + index < 0 then 0 else len + index)
    else if index > len then len
    else index
  }

  /** The list after `splice(index, 1)`. */
  function Splice<T>(s: seq<T>, index: int): seq<T> {
    var start := SpliceStart(|s|, index);
    if start < |s| then s[..start] + s[start + 1..] else s
  }

  /** `splice(index, 1)` removes exactly the element at the start position,
      if there is one, and keeps every other element in its relative order. */
  lemma {:induction false} SpliceRemovesOne<T>(s: seq<T>, index: int)
    ensures var start := SpliceStart(|s|, index);
      if start < |s| then
        |Splice(s, index)| == |s| - 1 &&
        (forall k :: 0 <= k < start ==> Splice(s, index)[k] == s[k]) &&
        (forall k :: start <= k < |s| - 1 ==> Splice(s, index)[k] == s[k + 1])
      else
        Splice(s, index) == s
  {
  }

  /** What `splice(index, 1)` keeps, together with what it removes, is the
      original list up to order. */
  lemma {:induction false} SplicePermutation<T>(s: seq<T>, index: int)
    ensures var start := SpliceStart(|s|, index);
      start < |s| ==> multiset(Splice(s, index)) + multiset{s[start]} == multiset(s)
  {
    var start := SpliceStart(|s|, index);
    if start < |s| {
      assert s == s[..start] + [s[start]] + s[start + 1..];
      calc {
        multiset(s);
        multiset(s[..start]) + multiset{s[start]} + multiset(s[start + 1..]);
        multiset(Splice(s, index)) + multiset{s[start]};
      }
    }
  }

  /** The length drops by exactly one for every index in [-|s|, |s|); an
      index at or past the end changes nothing, and one before the start
      removes the first element. */
  lemma {:induction false} SpliceLength<T>(s: seq<T>, index: int)
    ensures 0 <= |s| + index && index < |s| ==> |Splice(s, index)| == |s| - 1
    ensures |s| <= index ==> Splice(s, index) == s
    ensures |s| + index < 0 && s != [] ==> Splice(s, index) == s[1..]
  {
  }

  /** Removing the element at position k takes exactly one copy of it out
      of the multiset. */
  lemma RemoveAt<T>(s: seq<T>, k: nat)
    requires k < |s|
    ensures multiset(s) == multiset(s[..k] + s[k + 1..]) + multiset{s[k]}
  {
    assert s == s[..k] + [s[k]] + s[k + 1..];
  }

  lemma MultisetCancel<T>(m1: multiset<T>, m2: multiset<T>, x: T)
    requires m1 + multiset{x} == m2 + multiset{x}
    ensures m1 == m2
  {
    assert forall y :: m1[y] == (m1 + multiset{x})[y] - multiset{x}[y];
    assert forall y :: m2[y] == (m2 + multiset{x})[y] - multiset{x}[y];
  }

  /** The positions after removing position k, read in the original list. */
  lemma RemoveAtIndex<T>(s: seq<T>, k: nat, m: nat)
    requires k < |s| && m < |s| - 1
    ensures (s[..k] + s[k + 1..])[m] == if m < k then s[m] else s[m + 1]
  {
  }

  /** Two orderings of the same elements, each element carrying a value that
      depends only on the element, carry the same values up to order. */
  lemma {:induction false} CorrespondingMultisets<T, U>(a: seq<T>, b: seq<T>, ha: seq<U>, hb: seq<U>)
    requires multiset(a) == multiset(b) && |ha| == |a| && |hb| == |b|
    requires forall l, k :: 0 <= l < |a| && 0 <= k < |b| && a[l] == b[k] ==> ha[l] == hb[k]
    ensures multiset(ha) == multiset(hb)
    decreases |a|
  {
    if a == [] {
      assert |multiset(b)| == 0;
    } else {
      var n := |a| - 1;
      var x := a[n];
      assert x in multiset(a);
      assert x in b;
      var k :| 0 <= k < |b| && b[k] == x;
      var a', ha' := a[..n], ha[..n];
      var b', hb' := b[..k] + b[k + 1..], hb[..k] + hb[k + 1..];
      RemoveAt(a, n);
      RemoveAt(b, k);
      assert a[..n] + a[n + 1..] == a';
      MultisetCancel(multiset(a'), multiset(b'), x);
      forall l, m | 0 <= l < |a'| && 0 <= m < |b'| && a'[l] == b'[m]
        ensures ha'[l] == hb'[m]
      {
        RemoveAtIndex(b, k, m);
        RemoveAtIndex(hb, k, m);
      }
      CorrespondingMultisets(a', b', ha', hb');
      RemoveAt(ha, n);
      RemoveAt(hb, k);
      assert ha[..n] + ha[n + 1..] == ha';
    }
  }
}
