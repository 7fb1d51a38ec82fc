/** The few TArray operations the core relies on, over sequences. */
module Arrays {

  predicate NoDup<T(==, !new)>(s: seq<T>) {
    forall i, j :: 0 <= i < j < |s| ==> s[i] != s[j]
  }

  /** TArray::AddUnique: appends the element unless an equal one is present. */
  function AddUnique<T(==, !new)>(s: seq<T>, x: T): (r: seq<T>)
    ensures forall y :: y in r <==> y in s || y == x
    ensures |s| <= |r| <= |s| + 1 && r[..|s|] == s
    ensures x in s <==> |r| == |s|
    ensures NoDup(s) ==> NoDup(r)
  {
    if x in s then s else s + [x]
  }

  /** AddUnique of every element in turn, as a loop of AddUnique calls does. */
  function AddAllUnique<T(==, !new)>(s: seq<T>, xs: seq<T>): (r: seq<T>)
    ensures forall y :: y in r <==> y in s || y in xs
    ensures |s| <= |r| && r[..|s|] == s
    ensures NoDup(s) ==> NoDup(r)
    decreases |xs|
  {
    if |xs| == 0 then s
    else
      var r := AddAllUnique(AddUnique(s, xs[0]), xs[1..]);
      assert forall y :: y in xs <==> y == xs[0] || y in xs[1..] by {
        assert xs == [xs[0]] + xs[1..];
      }
      r
  }

  /** Deleting position t of a tail is deleting position t + 1 of the whole. */
  lemma ConsDelete<T>(x: T, s: seq<T>, t: nat)
    requires t < |s|
    ensures [x] + (s[..t] + s[t + 1..]) == ([x] + s)[..t + 1] + ([x] + s)[t + 2..]
  {
    var left := [x] + (s[..t] + s[t + 1..]);
    var right := ([x] + s)[..t + 1] + ([x] + s)[t + 2..];
    assert |left| == |right|;
    forall j | 0 <= j < |left|
      ensures left[j] == right[j]
    {
      if j == 0 {
      } else if j <= t {
        assert left[j] == s[j - 1];
      } else {
        assert left[j] == s[j];
      }
    }
  }
}
