// Vocabulary shared by every module: optional values, 32-bit conversion, initial
// segments of the naturals, and sequences without repetition.
module Common {

  datatype Option<+T> = None | Some(value: T)

  function Min(a: int, b: int): int {
    if a <= b then a else b
  }

  function Max(a: int, b: int): int {
    if a <= b then b else a
  }

  // Go's uint32(n) conversion of a non-negative int.
  const WORD: nat := 0x1_0000_0000

  function U32(n: nat): nat {
    n % WORD
  }

  // {0, 1, ..., n-1}
  function Upto(n: nat): (s: set<nat>)
    ensures forall i: nat :: i in s <==> i < n
    ensures |s| == n
  {
    if n == 0 then {} else Upto(n - 1) + {n - 1}
  }

  lemma {:induction false} SubsetSize<T>(a: set<T>, b: set<T>)
    requires a <= b
    ensures |a| <= |b|
    ensures |a| == |b| ==> a == b
  {
    assert b == a + (b - a);
    assert |b| == |a| + |b - a|;
    if |a| == |b| {
      assert b - a == {};
    }
  }

  // A set of indices below n that has n members holds all of them: the
  // counting argument behind "len(batches_done) >= batch_count".
  lemma FullWhenCounted(s: set<nat>, n: nat)
    requires s <= Upto(n)
    ensures |s| >= n <==> s == Upto(n)
  {
    SubsetSize(s, Upto(n));
  }

  predicate Distinct<T(==)>(s: seq<T>) {
    forall i, j :: 0 <= i < j < |s| ==> s[i] != s[j]
  }

  lemma SomeMember<T>(s: set<T>) returns (x: T)
    requires s != {}
    ensures x in s
  {
    x :| x in s;
  }
}
