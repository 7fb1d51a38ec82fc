/** FLSATTrimTimesMap: usage windows of one sound wave, each with the audio
    sections that play it. A TMap keyed by FLSATTrimTimes is an association
    list here, in iteration order: adding a new key appends it, removing a
    key keeps the others in order, and two keys never compare equal. */
module TrimMap {
  import opened Wrappers
  import opened Engine
  import opened Arrays
  import opened TrimTimes
  import opened SectionsContainer

  datatype Entry = Entry(key: TrimTimes, sections: Sections)

  type TrimTimesMap = seq<Entry>

  /** No two keys compare equal, as in any TMap. */
  predicate DistinctKeys(m: TrimTimesMap, tolerance: Tolerance) {
    forall i, j :: 0 <= i < j < |m| ==> !KeyEq(m[i].key, m[j].key, tolerance)
  }

  /** No key of `m` compares equal to `k`. */
  predicate KeyFree(k: TrimTimes, m: TrimTimesMap, tolerance: Tolerance) {
    forall e :: e in m ==> !KeyEq(k, e.key, tolerance)
  }

  predicate AllValid(m: TrimTimesMap) {
    forall i :: 0 <= i < |m| ==> IsValid(m[i].key)
  }

  predicate HasKey(m: TrimTimesMap, k: TrimTimes, tolerance: Tolerance) {
    exists i :: 0 <= i < |m| && KeyEq(m[i].key, k, tolerance)
  }

  /** Where TMap lookup finds `k`, or |m| when it is absent. */
  function IndexOfKey(m: TrimTimesMap, k: TrimTimes, tolerance: Tolerance): (i: nat)
    ensures i <= |m|
    ensures i < |m| ==> KeyEq(m[i].key, k, tolerance)
    ensures forall j :: 0 <= j < i ==> !KeyEq(m[j].key, k, tolerance)
    ensures i == |m| <==> !HasKey(m, k, tolerance)
  {
    if |m| == 0 then 0
    else if KeyEq(m[0].key, k, tolerance) then 0
    else 1 + IndexOfKey(m[1..], k, tolerance)
  }

  // ---------------------------------------------------------------------------
  // Add(TrimTimes, AudioSection)

  /** FLSATTrimTimesMap::Add of one section: a null section or an invalid
      window is refused; otherwise the first equal key is widened to the
      larger start and the larger end and takes the section, or a new entry
      holding only the section is appended. */
  function AddSpec(m: TrimTimesMap, w: TrimTimes, s: SectionRef, tolerance: Tolerance): (TrimTimesMap, bool)
  {
    if s.None? || !IsValid(w) then (m, false)
    else
      var i := IndexOfKey(m, w, tolerance);
      if i < |m| then
        var added := SectionsContainer.Add(m[i].sections, s);
        (m[i := Entry(GetMaxTrimTimes(w, m[i].key), added.1)], added.0)
      else
        var added := SectionsContainer.Add([], s);
        (m + [Entry(w, added.1)], added.0)
  }

  method Add(m: TrimTimesMap, w: TrimTimes, s: SectionRef, tolerance: Tolerance) returns (r: TrimTimesMap, ok: bool)
    ensures (r, ok) == AddSpec(m, w, s, tolerance)
  {
    if s.None? || !IsValid(w) {
      return m, false;
    }
    var i := 0;
    while i < |m|
      invariant 0 <= i <= |m|
      invariant forall j :: 0 <= j < i ==> !KeyEq(m[j].key, w, tolerance)
    {
      if KeyEq(m[i].key, w, tolerance) {
        IndexOfKeyAt(m, w, tolerance, i);
        var key := GetMaxTrimTimes(w, m[i].key);
        var added := SectionsContainer.Add(m[i].sections, s);
        return m[i := Entry(key, added.1)], added.0;
      }
      i := i + 1;
    }
    assert !HasKey(m, w, tolerance);
    var added := SectionsContainer.Add([], s);
    return m + [Entry(w, added.1)], added.0;
  }

  /** Add reports success exactly for a non-null section with a valid
      window, and a refused call changes nothing. */
  lemma AddRefuses(m: TrimTimesMap, w: TrimTimes, s: SectionRef, tolerance: Tolerance)
    ensures AddSpec(m, w, s, tolerance).1 <==> s.Some? && IsValid(w)
    ensures !AddSpec(m, w, s, tolerance).1 ==> AddSpec(m, w, s, tolerance).0 == m
  {
  }

  /** The map grows by one entry exactly when the window matches no key. */
  lemma AddGrowsByAtMostOne(m: TrimTimesMap, w: TrimTimes, s: SectionRef, tolerance: Tolerance)
    ensures var r := AddSpec(m, w, s, tolerance).0;
      && |m| <= |r| <= |m| + 1
      && (|r| == |m| + 1 <==> s.Some? && IsValid(w) && !HasKey(m, w, tolerance))
  {
  }

  /** Lookup finds the first key that compares equal. */
  lemma IndexOfKeyAt(m: TrimTimesMap, k: TrimTimes, tolerance: Tolerance, i: nat)
    requires i < |m| && KeyEq(m[i].key, k, tolerance)
    requires forall j :: 0 <= j < i ==> !KeyEq(m[j].key, k, tolerance)
    ensures IndexOfKey(m, k, tolerance) == i
  {
    assert HasKey(m, k, tolerance);
  }

  /** After a successful Add the key equal to the window holds the section,
      every other entry is as before, and the key is within the tolerance of
      the window. */
  lemma AddStoresSection(m: TrimTimesMap, w: TrimTimes, s: SectionRef, tolerance: Tolerance)
    requires s.Some? && IsValid(w) && AllValid(m)
    ensures var r := AddSpec(m, w, s, tolerance).0;
      var i := IndexOfKey(r, w, tolerance);
      && i < |r|
      && s in r[i].sections
      && (forall j :: 0 <= j < |m| && j != i ==> r[j] == m[j])
      && r[i].key.sound == w.sound
      && w.startMs <= r[i].key.startMs < w.startMs + tolerance
      && w.endMs <= r[i].key.endMs < w.endMs + tolerance
  {
    var r := AddSpec(m, w, s, tolerance).0;
    var k := IndexOfKey(m, w, tolerance);
    if k < |m| {
      MaxTrimTimesKeepsKey(w, m[k].key, tolerance);
      KeyEqIsClose(w, m[k].key, tolerance);
      IndexOfKeyAt(r, w, tolerance, k);
    } else {
      IndexOfKeyAt(r, w, tolerance, |m|);
    }
  }

  /** Adding the same window and section a second time changes nothing. */
  lemma AddIdempotent(m: TrimTimesMap, w: TrimTimes, s: SectionRef, tolerance: Tolerance)
    ensures AddSpec(AddSpec(m, w, s, tolerance).0, w, s, tolerance).0 == AddSpec(m, w, s, tolerance).0
  {
    if s.Some? && IsValid(w) {
      var k := IndexOfKey(m, w, tolerance);
      if k < |m| {
        AddIdempotentFound(m, w, s, tolerance, k);
      } else {
        AddIdempotentNew(m, w, s, tolerance);
      }
    }
  }

  lemma AddIdempotentFound(m: TrimTimesMap, w: TrimTimes, s: SectionRef, tolerance: Tolerance, k: nat)
    requires s.Some? && IsValid(w) && k == IndexOfKey(m, w, tolerance) < |m|
    ensures AddSpec(AddSpec(m, w, s, tolerance).0, w, s, tolerance).0 == AddSpec(m, w, s, tolerance).0
  {
    var r := m[k := Entry(GetMaxTrimTimes(w, m[k].key), AddUnique(m[k].sections, s))];
    assert AddSpec(m, w, s, tolerance).0 == r;
    MaxTrimTimesKeepsKey(w, m[k].key, tolerance);
    IndexOfKeyAt(r, w, tolerance, k);
    assert GetMaxTrimTimes(w, r[k].key) == r[k].key;
  }

  lemma AddIdempotentNew(m: TrimTimesMap, w: TrimTimes, s: SectionRef, tolerance: Tolerance)
    requires s.Some? && IsValid(w) && IndexOfKey(m, w, tolerance) == |m|
    ensures AddSpec(AddSpec(m, w, s, tolerance).0, w, s, tolerance).0 == AddSpec(m, w, s, tolerance).0
  {
    var r := m + [Entry(w, [s])];
    assert AddSpec(m, w, s, tolerance).0 == r;
    IndexOfKeyAt(r, w, tolerance, |m|);
    assert GetMaxTrimTimes(w, w) == w;
  }

  /** Add keeps the keys distinct and valid. */
  lemma AddKeepsInvariant(m: TrimTimesMap, w: TrimTimes, s: SectionRef, tolerance: Tolerance)
    requires DistinctKeys(m, tolerance) && AllValid(m)
    ensures DistinctKeys(AddSpec(m, w, s, tolerance).0, tolerance)
    ensures AllValid(AddSpec(m, w, s, tolerance).0)
  {
    AddKeepsDistinct(m, w, s, tolerance);
    AddKeepsValid(m, w, s, tolerance);
  }

  lemma AddKeepsValid(m: TrimTimesMap, w: TrimTimes, s: SectionRef, tolerance: Tolerance)
    requires AllValid(m)
    ensures AllValid(AddSpec(m, w, s, tolerance).0)
  {
  }

  lemma AddKeepsDistinct(m: TrimTimesMap, w: TrimTimes, s: SectionRef, tolerance: Tolerance)
    requires DistinctKeys(m, tolerance)
    ensures DistinctKeys(AddSpec(m, w, s, tolerance).0, tolerance)
  {
    var k := IndexOfKey(m, w, tolerance);
    if s.Some? && IsValid(w) {
      var r := AddSpec(m, w, s, tolerance).0;
      if k < |m| {
        MaxTrimTimesKeepsKey(w, m[k].key, tolerance);
        ReplaceKeepsDistinct(m, k, r[k], tolerance);
        assert r == m[k := r[k]];
      } else {
        AppendKeepsDistinct(m, r[|m|], tolerance);
        assert r == m + [r[|m|]];
      }
    }
  }

  /** An entry whose key compares equal to the key it replaces keeps the keys
      distinct. */
  lemma ReplaceKeepsDistinct(m: TrimTimesMap, k: nat, e: Entry, tolerance: Tolerance)
    requires DistinctKeys(m, tolerance) && k < |m| && KeyEq(e.key, m[k].key, tolerance)
    ensures DistinctKeys(m[k := e], tolerance)
  {
    var r := m[k := e];
    forall a, b | 0 <= a < b < |r|
      ensures !KeyEq(r[a].key, r[b].key, tolerance)
    {
      assert HashKey(r[a].key, tolerance) == HashKey(m[a].key, tolerance);
      assert HashKey(r[b].key, tolerance) == HashKey(m[b].key, tolerance);
    }
  }

  /** Appending an entry whose key is new keeps the keys distinct. */
  lemma AppendKeepsDistinct(m: TrimTimesMap, e: Entry, tolerance: Tolerance)
    requires DistinctKeys(m, tolerance) && !HasKey(m, e.key, tolerance)
    ensures DistinctKeys(m + [e], tolerance)
  {
    var r := m + [e];
    forall a, b | 0 <= a < b < |r|
      ensures !KeyEq(r[a].key, r[b].key, tolerance)
    {
      assert r[a] == m[a];
      if b < |m| {
        assert r[b] == m[b];
      } else {
        assert !KeyEq(m[a].key, e.key, tolerance);
      }
    }
  }

  // ---------------------------------------------------------------------------
  // TMap::Add(Key, Value) and TMap::Remove(Key)

  /** TMap::Add of a whole pair: the pair replaces the entry whose key
      compares equal, or is appended. */
  function Put(m: TrimTimesMap, k: TrimTimes, v: Sections, tolerance: Tolerance): TrimTimesMap
  {
    var i := IndexOfKey(m, k, tolerance);
    if i < |m| then m[i := Entry(k, v)] else m + [Entry(k, v)]
  }

  /** Put of a key the map lacks appends the pair. */
  lemma PutAbsent(m: TrimTimesMap, k: TrimTimes, v: Sections, tolerance: Tolerance)
    requires !HasKey(m, k, tolerance)
    ensures Put(m, k, v, tolerance) == m + [Entry(k, v)]
  {
  }

  /** After Put, looking `k` up finds exactly the new pair, the other entries
      are unchanged, and the keys stay distinct. */
  lemma PutStores(m: TrimTimesMap, k: TrimTimes, v: Sections, tolerance: Tolerance)
    ensures var r := Put(m, k, v, tolerance);
      var i := IndexOfKey(r, k, tolerance);
      && i < |r| && r[i] == Entry(k, v)
      && (forall j :: 0 <= j < |m| && j != i ==> r[j] == m[j])
      && |r| == (if HasKey(m, k, tolerance) then |m| else |m| + 1)
  {
    var r := Put(m, k, v, tolerance);
    var i := IndexOfKey(m, k, tolerance);
    IndexOfKeyAt(r, k, tolerance, i);
  }

  lemma PutKeepsDistinct(m: TrimTimesMap, k: TrimTimes, v: Sections, tolerance: Tolerance)
    requires DistinctKeys(m, tolerance)
    ensures DistinctKeys(Put(m, k, v, tolerance), tolerance)
  {
    var r := Put(m, k, v, tolerance);
    var i := IndexOfKey(m, k, tolerance);
    forall a, b | 0 <= a < b < |r|
      ensures !KeyEq(r[a].key, r[b].key, tolerance)
    {
      if a != i && b != i {
        assert r[a] == m[a] && r[b] == m[b];
      }
    }
  }

  /** TMap::Remove: the entries whose key compares equal to `k` go, the others
      stay in order. */
  function RemoveKey(m: TrimTimesMap, k: TrimTimes, tolerance: Tolerance): (r: TrimTimesMap)
    ensures |r| <= |m|
  {
    if |m| == 0 then []
    else (if KeyEq(m[0].key, k, tolerance) then [] else [m[0]]) + RemoveKey(m[1..], k, tolerance)
  }

  /** Remove keeps exactly the entries whose key differs from `k`, and
      removing an absent key changes nothing. */
  lemma {:induction false} RemoveKeyContents(m: TrimTimesMap, k: TrimTimes, tolerance: Tolerance)
    ensures forall e :: e in RemoveKey(m, k, tolerance) <==> e in m && !KeyEq(e.key, k, tolerance)
    ensures !HasKey(m, k, tolerance) ==> RemoveKey(m, k, tolerance) == m
  {
    if |m| > 0 {
      RemoveKeyContents(m[1..], k, tolerance);
      assert m == [m[0]] + m[1..];
      if !HasKey(m, k, tolerance) {
        assert !KeyEq(m[0].key, k, tolerance);
        assert !HasKey(m[1..], k, tolerance) by {
          forall j | 0 <= j < |m[1..]|
            ensures !KeyEq(m[1..][j].key, k, tolerance)
          {
            assert m[1..][j] == m[j + 1];
          }
        }
      }
    }
  }

  /** With distinct keys, Remove takes out exactly the one entry found by
      lookup and keeps the others in their order. */
  lemma {:induction false} RemoveKeyAt(m: TrimTimesMap, k: TrimTimes, tolerance: Tolerance)
    requires DistinctKeys(m, tolerance)
    ensures IndexOfKey(m, k, tolerance) < |m| ==>
      RemoveKey(m, k, tolerance) == m[..IndexOfKey(m, k, tolerance)] + m[IndexOfKey(m, k, tolerance) + 1..]
    ensures IndexOfKey(m, k, tolerance) == |m| ==> RemoveKey(m, k, tolerance) == m
  {
    if |m| > 0 {
      var tail := m[1..];
      var i := IndexOfKey(m, k, tolerance);
      if KeyEq(m[0].key, k, tolerance) {
        HeadKeyNotInTail(m, k, tolerance);
        RemoveKeyContents(tail, k, tolerance);
        assert RemoveKey(m, k, tolerance) == RemoveKey(tail, k, tolerance);
      } else {
        DistinctKeysTail(m, tolerance);
        RemoveKeyAt(tail, k, tolerance);
        var t := IndexOfKey(tail, k, tolerance);
        assert i == 1 + t;
        assert RemoveKey(m, k, tolerance) == [m[0]] + RemoveKey(tail, k, tolerance);
        assert [m[0]] + tail == m;
        if t < |tail| {
          ConsDelete(m[0], tail, t);
          assert RemoveKey(m, k, tolerance) == m[..i] + m[i + 1..];
        } else {
          assert RemoveKey(m, k, tolerance) == m;
        }
      }
    }
  }

  lemma DistinctKeysTail(m: TrimTimesMap, tolerance: Tolerance)
    requires |m| > 0 && DistinctKeys(m, tolerance)
    ensures DistinctKeys(m[1..], tolerance)
  {
    var tail := m[1..];
    forall a, b | 0 <= a < b < |tail|
      ensures !KeyEq(tail[a].key, tail[b].key, tolerance)
    {
      assert tail[a] == m[a + 1] && tail[b] == m[b + 1];
    }
  }

  /** With distinct keys, a key equal to the first one is not in the rest. */
  lemma HeadKeyNotInTail(m: TrimTimesMap, k: TrimTimes, tolerance: Tolerance)
    requires |m| > 0 && DistinctKeys(m, tolerance) && KeyEq(m[0].key, k, tolerance)
    ensures !HasKey(m[1..], k, tolerance)
  {
    var tail := m[1..];
    forall j | 0 <= j < |tail|
      ensures !KeyEq(tail[j].key, k, tolerance)
    {
      assert tail[j] == m[j + 1];
      assert !KeyEq(m[0].key, m[j + 1].key, tolerance);
    }
  }

  lemma RemoveKeyKeepsInvariant(m: TrimTimesMap, k: TrimTimes, tolerance: Tolerance)
    requires DistinctKeys(m, tolerance) && AllValid(m)
    ensures DistinctKeys(RemoveKey(m, k, tolerance), tolerance)
    ensures AllValid(RemoveKey(m, k, tolerance))
  {
    RemoveKeyKeepsDistinct(m, k, tolerance);
    RemoveKeyContents(m, k, tolerance);
    var r := RemoveKey(m, k, tolerance);
    forall i | 0 <= i < |r|
      ensures IsValid(r[i].key)
    {
      assert r[i] in m;
    }
  }

  lemma {:induction false} RemoveKeyKeepsDistinct(m: TrimTimesMap, k: TrimTimes, tolerance: Tolerance)
    requires DistinctKeys(m, tolerance)
    ensures DistinctKeys(RemoveKey(m, k, tolerance), tolerance)
  {
    if |m| > 0 {
      var tail := m[1..];
      DistinctKeysTail(m, tolerance);
      RemoveKeyKeepsDistinct(tail, k, tolerance);
      if !KeyEq(m[0].key, k, tolerance) {
        var rt := RemoveKey(tail, k, tolerance);
        RemoveKeyContents(tail, k, tolerance);
        var r := [m[0]] + rt;
        assert RemoveKey(m, k, tolerance) == r;
        forall a, b | 0 <= a < b < |r|
          ensures !KeyEq(r[a].key, r[b].key, tolerance)
        {
          assert r[b] == rt[b - 1];
          if a == 0 {
            assert rt[b - 1] in tail;
            var j :| 0 <= j < |tail| && tail[j] == rt[b - 1];
            assert tail[j] == m[j + 1];
          } else {
            assert r[a] == rt[a - 1];
          }
        }
      }
    }
  }

  // ---------------------------------------------------------------------------
  // SortKeys

  /** The comparison SortKeys sorts by: start first, then end. */
  predicate KeyLess(a: TrimTimes, b: TrimTimes) {
    a.startMs < b.startMs || (a.startMs == b.startMs && a.endMs < b.endMs)
  }

  predicate SortedByKey(m: TrimTimesMap) {
    forall i, j :: 0 <= i < j < |m| ==> !KeyLess(m[j].key, m[i].key)
  }

  function Insert(x: Entry, s: TrimTimesMap): (r: TrimTimesMap)
    ensures |r| == |s| + 1
    ensures multiset(r) == multiset(s) + multiset{x}
    ensures forall e :: e in r <==> e == x || e in s
  {
    if |s| == 0 then [x]
    else if !KeyLess(s[0].key, x.key) then [x] + s
    else
      assert s == [s[0]] + s[1..];
      [s[0]] + Insert(x, s[1..])
  }

  /** Inserting into a sorted map keeps it sorted. */
  lemma {:induction false} InsertSorted(x: Entry, s: TrimTimesMap)
    requires SortedByKey(s)
    ensures SortedByKey(Insert(x, s))
  {
    if |s| > 0 {
      if !KeyLess(s[0].key, x.key) {
        var r := [x] + s;
        forall i, j | 0 <= i < j < |r|
          ensures !KeyLess(r[j].key, r[i].key)
        {
          if i == 0 && j > 1 {
            assert !KeyLess(s[j - 1].key, s[0].key);
          }
        }
      } else {
        var tail := s[1..];
        assert SortedByKey(tail);
        InsertSorted(x, tail);
        var rest := Insert(x, tail);
        forall j | 0 <= j < |rest|
          ensures !KeyLess(rest[j].key, s[0].key)
        {
          if rest[j] != x {
            assert rest[j] in tail;
            var k :| 0 <= k < |tail| && tail[k] == rest[j];
            assert s[k + 1] == rest[j];
          }
        }
        assert Insert(x, s) == [s[0]] + rest;
      }
    }
  }

  /** TArray::Sort with SortKeys' comparison; the order among equal starts
      and ends is the engine's and is not modelled. */
  function SortEntries(m: TrimTimesMap): (r: TrimTimesMap)
    ensures |r| == |m|
    ensures multiset(r) == multiset(m)
    ensures forall e :: e in r <==> e in m
    ensures SortedByKey(r)
  {
    if |m| == 0 then []
    else
      assert m == [m[0]] + m[1..];
      InsertSorted(m[0], SortEntries(m[1..]));
      Insert(m[0], SortEntries(m[1..]))
  }

  lemma {:induction false} InsertKeepsDistinct(x: Entry, s: TrimTimesMap, tolerance: Tolerance)
    requires KeyFree(x.key, s, tolerance) && DistinctKeys(s, tolerance)
    ensures DistinctKeys(Insert(x, s), tolerance)
  {
    if |s| > 0 && KeyLess(s[0].key, x.key) {
      InsertKeepsDistinct(x, s[1..], tolerance);
      var r := Insert(x, s);
      forall i, j | 0 <= i < j < |r|
        ensures !KeyEq(r[i].key, r[j].key, tolerance)
      {
        if i == 0 {
          assert r[j] in Insert(x, s[1..]);
        }
      }
    }
  }

  lemma {:induction false} SortEntriesKeepsDistinct(m: TrimTimesMap, tolerance: Tolerance)
    requires DistinctKeys(m, tolerance)
    ensures DistinctKeys(SortEntries(m), tolerance)
  {
    if |m| > 0 {
      SortEntriesKeepsDistinct(m[1..], tolerance);
      InsertKeepsDistinct(m[0], SortEntries(m[1..]), tolerance);
    }
  }

  /** Resetting the map and adding back every pair in turn. */
  function Refill(xs: TrimTimesMap, tolerance: Tolerance): TrimTimesMap
  {
    if |xs| == 0 then []
    else
      var last := xs[|xs| - 1];
      Put(Refill(xs[..|xs| - 1], tolerance), last.key, last.sections, tolerance)
  }

  lemma {:induction false} RefillDistinct(xs: TrimTimesMap, tolerance: Tolerance)
    requires DistinctKeys(xs, tolerance)
    ensures Refill(xs, tolerance) == xs
  {
    if |xs| > 0 {
      var init := xs[..|xs| - 1];
      RefillDistinct(init, tolerance);
      assert !HasKey(init, xs[|xs| - 1].key, tolerance);
      assert xs == init + [xs[|xs| - 1]];
    }
  }

  lemma RefillSnoc(xs: TrimTimesMap, i: nat, tolerance: Tolerance)
    requires i < |xs|
    ensures Refill(xs[..i + 1], tolerance) == Put(Refill(xs[..i], tolerance), xs[i].key, xs[i].sections, tolerance)
  {
    assert xs[..i + 1][..i] == xs[..i];
  }

  /** The map SortKeys leaves. */
  function SortedKeys(m: TrimTimesMap, tolerance: Tolerance): TrimTimesMap {
    Refill(SortEntries(m), tolerance)
  }

  /** SortKeys orders the entries by start, then end, and keeps exactly the
      same key-to-sections pairs. */
  lemma SortedKeysContents(m: TrimTimesMap, tolerance: Tolerance)
    requires DistinctKeys(m, tolerance)
    ensures SortedByKey(SortedKeys(m, tolerance))
    ensures multiset(SortedKeys(m, tolerance)) == multiset(m)
    ensures DistinctKeys(SortedKeys(m, tolerance), tolerance)
  {
    SortEntriesKeepsDistinct(m, tolerance);
    RefillDistinct(SortEntries(m), tolerance);
  }

  /** FLSATTrimTimesMap::SortKeys: copy the pairs out, sort them, reset the
      map and add them back. */
  method SortKeys(m: TrimTimesMap, tolerance: Tolerance) returns (r: TrimTimesMap)
    ensures r == SortedKeys(m, tolerance)
  {
    var pairs: TrimTimesMap := [];
    var i := 0;
    while i < |m|
      invariant 0 <= i <= |m|
      invariant pairs == m[..i]
    {
      assert m[..i + 1] == m[..i] + [m[i]];
      pairs := pairs + [m[i]];
      i := i + 1;
    }
    assert m[..i] == m;
    pairs := SortEntries(pairs);
    r := [];
    i := 0;
    while i < |pairs|
      invariant 0 <= i <= |pairs|
      invariant r == Refill(pairs[..i], tolerance)
    {
      RefillSnoc(pairs, i, tolerance);
      r := Put(r, pairs[i].key, pairs[i].sections, tolerance);
      i := i + 1;
    }
    assert pairs[..i] == pairs;
  }

  // ---------------------------------------------------------------------------
  // GetFirstAudioSection and SetSound

  /** The first non-null section of a container, the loop of
      GetFirstAudioSection. */
  function FirstNonNull(s: Sections): (r: SectionRef)
    ensures r.None? <==> forall j :: 0 <= j < |s| ==> s[j].None?
    ensures r.Some? ==> exists j :: 0 <= j < |s| && s[j] == r && forall k :: 0 <= k < j ==> s[k].None?
  {
    if |s| == 0 then None
    else if s[0].Some? then s[0]
    else
      var r := FirstNonNull(s[1..]);
      assert r.Some? ==> exists j :: 0 <= j < |s[1..]| && s[1..][j] == r && forall k :: 0 <= k < j ==> s[1..][k].None?;
      r
  }

  /** The section GetFirstAudioSection returns: only the first entry of the
      map is looked at. */
  function FirstAudioSection(m: TrimTimesMap): SectionRef {
    if |m| == 0 then None else FirstNonNull(m[0].sections)
  }

  method GetFirstAudioSection(m: TrimTimesMap) returns (r: SectionRef)
    ensures r == FirstAudioSection(m)
    ensures r.Some? ==> r in m[0].sections
    ensures |m| > 0 && (exists j :: 0 <= j < |m[0].sections| && m[0].sections[j].Some?) ==> r.Some?
  {
    if |m| == 0 || |m[0].sections| == 0 {
      return None;
    }
    var sections := m[0].sections;
    var i := 0;
    while i < |sections|
      invariant 0 <= i <= |sections|
      invariant forall k :: 0 <= k < i ==> sections[k].None?
    {
      if sections[i].Some? {
        return sections[i];
      }
      i := i + 1;
    }
    return None;
  }

  /** Every key of the map names the same sound. */
  predicate KeysOfSound(m: TrimTimesMap, sound: Option<SoundWave>) {
    forall i :: 0 <= i < |m| ==> m[i].key.sound == sound
  }

  /** The sections of all entries, in order. */
  function AllSections(m: TrimTimesMap): Sections {
    if |m| == 0 then [] else AllSections(m[..|m| - 1]) + m[|m| - 1].sections
  }

  /** The keys after FLSATTrimTimes::SetSoundWave on each of them. */
  function WithSound(m: TrimTimesMap, sound: Option<SoundWave>): (r: TrimTimesMap)
    ensures |r| == |m|
    ensures forall i :: 0 <= i < |m| ==> r[i] == Entry(m[i].key.(sound := sound), m[i].sections)
  {
    seq(|m|, i requires 0 <= i < |m| => Entry(m[i].key.(sound := sound), m[i].sections))
  }

  /** Re-sounding keys that all share one sound keeps them distinct. */
  lemma WithSoundKeepsDistinct(m: TrimTimesMap, old_sound: Option<SoundWave>, sound: Option<SoundWave>, tolerance: Tolerance)
    requires KeysOfSound(m, old_sound) && DistinctKeys(m, tolerance)
    ensures KeysOfSound(WithSound(m, sound), sound)
    ensures DistinctKeys(WithSound(m, sound), tolerance)
  {
  }

  /** FLSATTrimTimesMap::SetSound: every key and every section of the map
      gets the sound. */
  method SetSound(w: World, m: TrimTimesMap, sound: Option<SoundWave>) returns (w': World, r: TrimTimesMap)
    ensures r == WithSound(m, sound)
    ensures w' == SetSoundSpec(w, AllSections(m), sound)
  {
    r := m;
    w' := w;
    var i := 0;
    while i < |m|
      invariant 0 <= i <= |m|
      invariant |r| == |m|
      invariant forall j :: 0 <= j < i ==> r[j] == Entry(m[j].key.(sound := sound), m[j].sections)
      invariant forall j :: i <= j < |m| ==> r[j] == m[j]
      invariant w' == SetSoundSpec(w, AllSections(m[..i]), sound)
    {
      assert m[..i + 1][..i] == m[..i];
      SetSoundSpecConcat(w, AllSections(m[..i]), m[i].sections, sound);
      r := r[i := r[i].(key := r[i].key.(sound := sound))];
      w' := SectionsContainer.SetSound(w', r[i].sections, sound);
      i := i + 1;
    }
    assert m[..i] == m;
  }
}
