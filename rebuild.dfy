/** FLSATTrimTimesMap::RebuildTrimTimesMapWithProcessor: a processor may
    create new audio sections from the sections of each valid key; the keys
    that produced new sections are removed, the new sections are added back
    by their own windows, and the keys are sorted again. */
module Rebuild {
  import opened Wrappers
  import opened Engine
  import opened Arrays
  import opened TrimTimes
  import opened SectionsContainer
  import opened TrimMap
  import opened AudioSections

  /** FLSATSectionsProcessor: the sections the processor adds to
      AllNewSections for one section of a key. The host objects it creates
      are already part of the world given to the rebuild. */
  type Processor = (SectionRef, TrimTimes) -> Sections

  /** What the first pass collects: AllNewSections and TrimTimesToRemove. */
  datatype Collected = Collected(newSections: Sections, toRemove: seq<TrimTimes>)

  predicate KeyIn(k: TrimTimes, ks: seq<TrimTimes>, tolerance: Tolerance) {
    exists j :: 0 <= j < |ks| && KeyEq(ks[j], k, tolerance)
  }

  /** TArray<FLSATTrimTimes>::AddUnique, whose equality is the key equality. */
  function AddUniqueKey(ks: seq<TrimTimes>, k: TrimTimes, tolerance: Tolerance): (r: seq<TrimTimes>)
    ensures KeyIn(k, r, tolerance)
    ensures forall x :: KeyIn(x, r, tolerance) <==> KeyIn(x, ks, tolerance) || KeyEq(k, x, tolerance)
  {
    if KeyIn(k, ks, tolerance) then ks
    else
      var r := ks + [k];
      assert r[|ks|] == k;
      forall x | KeyIn(x, r, tolerance)
        ensures KeyIn(x, ks, tolerance) || KeyEq(k, x, tolerance)
      {
        var j :| 0 <= j < |r| && KeyEq(r[j], x, tolerance);
        if j < |ks| {
          assert ks[j] == r[j];
        }
      }
      forall x | KeyIn(x, ks, tolerance)
        ensures KeyIn(x, r, tolerance)
      {
        var j :| 0 <= j < |ks| && KeyEq(ks[j], x, tolerance);
        assert r[j] == ks[j];
      }
      r
  }

  /** The processor run on the first sections of one key. */
  function ProcessSections(all: Sections, secs: Sections, key: TrimTimes, proc: Processor): Sections {
    if |secs| == 0 then all
    else AddAllUnique(ProcessSections(all, secs[..|secs| - 1], key, proc), proc(secs[|secs| - 1], key))
  }

  /** The first pass over the first entries: invalid keys are skipped, and a
      key is marked for removal when its sections made AllNewSections grow. */
  function CollectSpec(m: TrimTimesMap, proc: Processor, tolerance: Tolerance): Collected {
    if |m| == 0 then Collected([], [])
    else
      var prev := CollectSpec(m[..|m| - 1], proc, tolerance);
      var e := m[|m| - 1];
      if !IsValid(e.key) then prev
      else
        var all := ProcessSections(prev.newSections, e.sections, e.key, proc);
        Collected(all, if |all| > |prev.newSections| then AddUniqueKey(prev.toRemove, e.key, tolerance) else prev.toRemove)
  }

  /** The map after removing each marked key in turn. */
  function RemoveKeysSpec(m: TrimTimesMap, ks: seq<TrimTimes>, tolerance: Tolerance): TrimTimesMap {
    if |ks| == 0 then m
    else RemoveKey(RemoveKeysSpec(m, ks[..|ks| - 1], tolerance), ks[|ks| - 1], tolerance)
  }

  function RebuildSpec(w: World, m: TrimTimesMap, proc: Processor, tolerance: Tolerance): TrimTimesMap {
    var c := CollectSpec(m, proc, tolerance);
    if |c.toRemove| == 0 then m
    else SortedKeys(CalcAllSpec(w, RemoveKeysSpec(m, c.toRemove, tolerance), c.newSections, tolerance), tolerance)
  }

  method RebuildTrimTimesMapWithProcessor(w: World, m: TrimTimesMap, proc: Processor, tolerance: Tolerance)
    returns (r: TrimTimesMap)
    ensures r == RebuildSpec(w, m, proc, tolerance)
  {
    var all: Sections := [];
    var toRemove: seq<TrimTimes> := [];
    var i := 0;
    while i < |m|
      invariant 0 <= i <= |m|
      invariant Collected(all, toRemove) == CollectSpec(m[..i], proc, tolerance)
    {
      CollectSnoc(m, i, proc, tolerance);
      var e := m[i];
      if IsValid(e.key) {
        var before := |all|;
        all := ProcessKeySections(all, e.sections, e.key, proc);
        if |all| > before {
          toRemove := AddUniqueKey(toRemove, e.key, tolerance);
        }
      }
      i := i + 1;
    }
    assert m[..i] == m;
    r := m;
    if |toRemove| != 0 {
      r := RemoveKeys(m, toRemove, tolerance);
      r := CalculateTrimTimesInAllSections(w, r, all, tolerance);
      r := SortKeys(r, tolerance);
    }
  }

  /** The inner loop: the processor's sections for every section of one
      key, added uniquely. */
  method ProcessKeySections(start: Sections, secs: Sections, key: TrimTimes, proc: Processor) returns (all: Sections)
    ensures all == ProcessSections(start, secs, key, proc)
  {
    all := start;
    var j := 0;
    while j < |secs|
      invariant 0 <= j <= |secs|
      invariant all == ProcessSections(start, secs[..j], key, proc)
    {
      ProcessSectionsSnoc(start, secs, j, key, proc);
      all := AddAllUnique(all, proc(secs[j], key));
      j := j + 1;
    }
    assert secs[..j] == secs;
  }

  /** The removal loop: every marked key in turn. */
  method RemoveKeys(m: TrimTimesMap, ks: seq<TrimTimes>, tolerance: Tolerance) returns (r: TrimTimesMap)
    ensures r == RemoveKeysSpec(m, ks, tolerance)
  {
    r := m;
    var k := 0;
    while k < |ks|
      invariant 0 <= k <= |ks|
      invariant r == RemoveKeysSpec(m, ks[..k], tolerance)
    {
      RemoveKeysSnoc(m, ks, k, tolerance);
      r := RemoveKey(r, ks[k], tolerance);
      k := k + 1;
    }
    assert ks[..k] == ks;
  }

  lemma CollectSnoc(m: TrimTimesMap, i: nat, proc: Processor, tolerance: Tolerance)
    requires i < |m|
    ensures CollectSpec(m[..i + 1], proc, tolerance) ==
      var prev := CollectSpec(m[..i], proc, tolerance);
      var e := m[i];
      if !IsValid(e.key) then prev
      else
        var all := ProcessSections(prev.newSections, e.sections, e.key, proc);
        Collected(all, if |all| > |prev.newSections| then AddUniqueKey(prev.toRemove, e.key, tolerance) else prev.toRemove)
  {
    assert m[..i + 1][..i] == m[..i];
  }

  lemma ProcessSectionsSnoc(all: Sections, secs: Sections, j: nat, key: TrimTimes, proc: Processor)
    requires j < |secs|
    ensures ProcessSections(all, secs[..j + 1], key, proc) ==
      AddAllUnique(ProcessSections(all, secs[..j], key, proc), proc(secs[j], key))
  {
    assert secs[..j + 1][..j] == secs[..j];
  }

  lemma RemoveKeysSnoc(m: TrimTimesMap, ks: seq<TrimTimes>, k: nat, tolerance: Tolerance)
    requires k < |ks|
    ensures RemoveKeysSpec(m, ks[..k + 1], tolerance) == RemoveKey(RemoveKeysSpec(m, ks[..k], tolerance), ks[k], tolerance)
  {
    assert ks[..k + 1][..k] == ks[..k];
  }

  // ---------------------------------------------------------------------------
  // Properties

  lemma {:induction false} ProcessSectionsNothing(all: Sections, secs: Sections, key: TrimTimes, proc: Processor)
    requires forall x :: x in secs ==> proc(x, key) == []
    ensures ProcessSections(all, secs, key, proc) == all
  {
    if |secs| > 0 {
      ProcessSectionsNothing(all, secs[..|secs| - 1], key, proc);
      assert secs[|secs| - 1] in secs;
    }
  }

  /** A processor that adds nothing to any valid key's sections leaves the
      map exactly as it was, unsorted. */
  lemma {:induction false} RebuildWithoutNewSections(w: World, m: TrimTimesMap, proc: Processor, tolerance: Tolerance)
    requires forall i, x :: 0 <= i < |m| && IsValid(m[i].key) && x in m[i].sections ==> proc(x, m[i].key) == []
    ensures CollectSpec(m, proc, tolerance) == Collected([], [])
    ensures RebuildSpec(w, m, proc, tolerance) == m
  {
    if |m| > 0 {
      var init := m[..|m| - 1];
      assert forall i :: 0 <= i < |init| ==> init[i] == m[i];
      RebuildWithoutNewSections(w, init, proc, tolerance);
      var e := m[|m| - 1];
      if IsValid(e.key) {
        ProcessSectionsNothing([], e.sections, e.key, proc);
      }
    }
  }

  /** A key is marked when the sections of the entry with that key made
      AllNewSections grow, given what earlier entries had added. */
  predicate GrewAt(m: TrimTimesMap, proc: Processor, tolerance: Tolerance, i: nat)
    requires i < |m|
  {
    var before := CollectSpec(m[..i], proc, tolerance).newSections;
    IsValid(m[i].key) && |ProcessSections(before, m[i].sections, m[i].key, proc)| > |before|
  }

  /** Every key marked for removal is the key of some entry. */
  lemma {:induction false} CollectMarksOnlyKeys(m: TrimTimesMap, proc: Processor, tolerance: Tolerance)
    ensures forall k :: KeyIn(k, CollectSpec(m, proc, tolerance).toRemove, tolerance) ==>
      exists i :: 0 <= i < |m| && KeyEq(m[i].key, k, tolerance)
  {
    if |m| > 0 {
      var init := m[..|m| - 1];
      CollectMarksOnlyKeys(init, proc, tolerance);
      var prev := CollectSpec(init, proc, tolerance);
      var c := CollectSpec(m, proc, tolerance);
      var e := m[|m| - 1];
      assert c.toRemove == prev.toRemove || c.toRemove == AddUniqueKey(prev.toRemove, e.key, tolerance);
      forall k | KeyIn(k, c.toRemove, tolerance)
        ensures exists i :: 0 <= i < |m| && KeyEq(m[i].key, k, tolerance)
      {
        if KeyIn(k, prev.toRemove, tolerance) {
          var i :| 0 <= i < |init| && KeyEq(init[i].key, k, tolerance);
          assert m[i] == init[i];
        } else {
          assert KeyEq(m[|m| - 1].key, k, tolerance);
        }
      }
    }
  }

  /** Whether an entry grew AllNewSections depends only on the entries up to
      it. */
  lemma GrewAtPrefix(m: TrimTimesMap, n: nat, proc: Processor, tolerance: Tolerance, i: nat)
    requires i < n <= |m|
    ensures GrewAt(m, proc, tolerance, i) == GrewAt(m[..n], proc, tolerance, i)
  {
    assert m[..i] == m[..n][..i];
    assert m[i] == m[..n][i];
  }

  /** A prefix of a map with distinct keys has distinct keys. */
  lemma DistinctKeysPrefix(m: TrimTimesMap, n: nat, tolerance: Tolerance)
    requires n <= |m| && DistinctKeys(m, tolerance)
    ensures DistinctKeys(m[..n], tolerance)
  {
    var init := m[..n];
    forall a, b | 0 <= a < b < |init|
      ensures !KeyEq(init[a].key, init[b].key, tolerance)
    {
      assert init[a] == m[a] && init[b] == m[b];
    }
  }

  /** One step of the first pass: the new key is marked exactly when its
      sections grew AllNewSections, and other keys keep their mark. */
  lemma MarkStep(before: seq<TrimTimes>, after: seq<TrimTimes>, k: TrimTimes, x: TrimTimes, grew: bool, tolerance: Tolerance)
    requires after == if grew then AddUniqueKey(before, k, tolerance) else before
    requires !KeyIn(k, before, tolerance)
    ensures KeyIn(k, after, tolerance) <==> grew
    ensures !KeyEq(k, x, tolerance) ==> (KeyIn(x, after, tolerance) <==> KeyIn(x, before, tolerance))
  {
  }

  /** The marks after one more entry, in terms of the marks before it. */
  lemma CollectStep(m: TrimTimesMap, proc: Processor, tolerance: Tolerance)
    requires |m| > 0
    ensures CollectSpec(m, proc, tolerance).toRemove ==
      var before := CollectSpec(m[..|m| - 1], proc, tolerance).toRemove;
      if GrewAt(m, proc, tolerance, |m| - 1) then AddUniqueKey(before, m[|m| - 1].key, tolerance) else before
  {
  }

  /** With distinct keys, the key of one entry is marked exactly when that
      entry grew AllNewSections. */
  lemma {:induction false} CollectMarksGrewAt(m: TrimTimesMap, proc: Processor, tolerance: Tolerance, i: nat)
    requires DistinctKeys(m, tolerance) && i < |m|
    ensures KeyIn(m[i].key, CollectSpec(m, proc, tolerance).toRemove, tolerance) <==> GrewAt(m, proc, tolerance, i)
  {
    var init := m[..|m| - 1];
    var e := m[|m| - 1];
    var before := CollectSpec(init, proc, tolerance).toRemove;
    CollectStep(m, proc, tolerance);
    CollectMarksOnlyKeys(init, proc, tolerance);
    assert !KeyIn(e.key, before, tolerance) by {
      forall j | 0 <= j < |init|
        ensures !KeyEq(init[j].key, e.key, tolerance)
      {
        assert m[j] == init[j];
      }
    }
    MarkStep(before, CollectSpec(m, proc, tolerance).toRemove, e.key, m[i].key, GrewAt(m, proc, tolerance, |m| - 1), tolerance);
    if i < |init| {
      DistinctKeysPrefix(m, |m| - 1, tolerance);
      CollectMarksGrewAt(init, proc, tolerance, i);
      GrewAtPrefix(m, |m| - 1, proc, tolerance, i);
      assert m[i] == init[i];
    }
  }

  /** With distinct keys, the key of an entry is marked exactly when that
      entry grew AllNewSections. */
  lemma CollectMarksGrew(m: TrimTimesMap, proc: Processor, tolerance: Tolerance)
    requires DistinctKeys(m, tolerance)
    ensures forall i :: 0 <= i < |m| ==>
      (KeyIn(m[i].key, CollectSpec(m, proc, tolerance).toRemove, tolerance) <==> GrewAt(m, proc, tolerance, i))
  {
    forall i | 0 <= i < |m|
      ensures KeyIn(m[i].key, CollectSpec(m, proc, tolerance).toRemove, tolerance) <==> GrewAt(m, proc, tolerance, i)
    {
      CollectMarksGrewAt(m, proc, tolerance, i);
    }
  }

  /** With distinct keys, the keys marked for removal are exactly the keys of
      the valid entries that produced new sections. */
  lemma CollectMarksExactly(m: TrimTimesMap, proc: Processor, tolerance: Tolerance)
    requires DistinctKeys(m, tolerance)
    ensures var c := CollectSpec(m, proc, tolerance);
      && (forall k :: KeyIn(k, c.toRemove, tolerance) ==> exists i :: 0 <= i < |m| && KeyEq(m[i].key, k, tolerance))
      && (forall i :: 0 <= i < |m| ==> (KeyIn(m[i].key, c.toRemove, tolerance) <==> GrewAt(m, proc, tolerance, i)))
  {
    CollectMarksOnlyKeys(m, proc, tolerance);
    CollectMarksGrew(m, proc, tolerance);
  }

  /** Removing the marked keys keeps exactly the entries whose key is not
      marked, in order. */
  lemma {:induction false} RemoveKeysContents(m: TrimTimesMap, ks: seq<TrimTimes>, tolerance: Tolerance)
    ensures forall e :: e in RemoveKeysSpec(m, ks, tolerance) <==> e in m && !KeyIn(e.key, ks, tolerance)
  {
    if |ks| > 0 {
      var init := ks[..|ks| - 1];
      RemoveKeysContents(m, init, tolerance);
      RemoveKeyContents(RemoveKeysSpec(m, init, tolerance), ks[|ks| - 1], tolerance);
      forall e: Entry
        ensures KeyIn(e.key, ks, tolerance) <==> KeyIn(e.key, init, tolerance) || KeyEq(e.key, ks[|ks| - 1], tolerance)
      {
        if KeyIn(e.key, ks, tolerance) {
          var j :| 0 <= j < |ks| && KeyEq(ks[j], e.key, tolerance);
          if j < |init| {
            assert init[j] == ks[j];
          }
        }
        if KeyIn(e.key, init, tolerance) {
          var j :| 0 <= j < |init| && KeyEq(init[j], e.key, tolerance);
          assert ks[j] == init[j];
        }
      }
    }
  }

  lemma {:induction false} RemoveKeysKeepsInvariant(m: TrimTimesMap, ks: seq<TrimTimes>, tolerance: Tolerance)
    requires DistinctKeys(m, tolerance) && AllValid(m)
    ensures DistinctKeys(RemoveKeysSpec(m, ks, tolerance), tolerance) && AllValid(RemoveKeysSpec(m, ks, tolerance))
  {
    if |ks| > 0 {
      RemoveKeysKeepsInvariant(m, ks[..|ks| - 1], tolerance);
      RemoveKeyKeepsInvariant(RemoveKeysSpec(m, ks[..|ks| - 1], tolerance), ks[|ks| - 1], tolerance);
    }
  }

  /** What the rebuild does: with distinct keys, an entry survives the
      removal step exactly when its key produced no new sections; when some
      key did, the result is sorted by start and end and keeps the map
      invariant. */
  lemma RebuildContents(w: World, m: TrimTimesMap, proc: Processor, tolerance: Tolerance)
    requires DistinctKeys(m, tolerance) && AllValid(m)
    ensures var c := CollectSpec(m, proc, tolerance);
      var kept := RemoveKeysSpec(m, c.toRemove, tolerance);
      && (forall i :: 0 <= i < |m| ==> (m[i] in kept <==> !GrewAt(m, proc, tolerance, i)))
      && (forall e :: e in kept ==> e in m)
    ensures var r := RebuildSpec(w, m, proc, tolerance);
      && DistinctKeys(r, tolerance) && AllValid(r)
      && (r != m ==> SortedByKey(r))
  {
    RebuildKeeps(m, proc, tolerance);
    RebuildKeepsInvariant(w, m, proc, tolerance);
  }

  /** An entry survives the removal step exactly when its key produced no
      new sections. */
  lemma RebuildKeeps(m: TrimTimesMap, proc: Processor, tolerance: Tolerance)
    requires DistinctKeys(m, tolerance)
    ensures forall i :: 0 <= i < |m| ==>
      (m[i] in RemoveKeysSpec(m, CollectSpec(m, proc, tolerance).toRemove, tolerance) <==> !GrewAt(m, proc, tolerance, i))
    ensures forall e :: e in RemoveKeysSpec(m, CollectSpec(m, proc, tolerance).toRemove, tolerance) ==> e in m
  {
    var c := CollectSpec(m, proc, tolerance);
    CollectMarksGrew(m, proc, tolerance);
    RemoveKeysContents(m, c.toRemove, tolerance);
  }

  /** The rebuilt map keeps the map invariant, and is sorted by start and
      end when some key produced new sections. */
  lemma RebuildKeepsInvariant(w: World, m: TrimTimesMap, proc: Processor, tolerance: Tolerance)
    requires DistinctKeys(m, tolerance) && AllValid(m)
    ensures DistinctKeys(RebuildSpec(w, m, proc, tolerance), tolerance) && AllValid(RebuildSpec(w, m, proc, tolerance))
    ensures RebuildSpec(w, m, proc, tolerance) != m ==> SortedByKey(RebuildSpec(w, m, proc, tolerance))
  {
    var c := CollectSpec(m, proc, tolerance);
    if |c.toRemove| != 0 {
      var kept := RemoveKeysSpec(m, c.toRemove, tolerance);
      RemoveKeysKeepsInvariant(m, c.toRemove, tolerance);
      var all := CalcAllSpec(w, kept, c.newSections, tolerance);
      CalcAllContents(w, kept, c.newSections, tolerance);
      SortedKeysContents(all, tolerance);
      var sorted := SortedKeys(all, tolerance);
      assert AllValid(sorted) by {
        forall i | 0 <= i < |sorted|
          ensures IsValid(sorted[i].key)
        {
          assert sorted[i] in multiset(all);
        }
      }
    }
  }
}
