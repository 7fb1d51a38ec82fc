/** The older window type of the plugin's first pipeline: FTrimTimes, whose
    equality allows a tolerance while its hash is exact,
    FAudioSectionsContainer and FTrimTimesMap. */
module LegacyAudioTypes {
  import opened Wrappers
  import opened Engine
  import opened Arrays

  /** FTrimTimes: a window in milliseconds on a sound wave. */
  datatype LegacyTrimTimes = LegacyTrimTimes(startMs: int, endMs: int, sound: Option<SoundWave>)

  /** FTrimTimes::Invalid. */
  const Invalid := LegacyTrimTimes(-1, -1, None)

  predicate IsValid(t: LegacyTrimTimes) {
    t.startMs >= 0 && t.endMs >= 0 && t.sound.Some?
  }

  function Abs(x: int): nat {
    if x < 0 then -x else x
  }

  /** Same sound wave, and both bounds within the tolerance. */
  predicate IsSimilar(a: LegacyTrimTimes, b: LegacyTrimTimes, tolerance: int) {
    a.sound == b.sound && Abs(a.startMs - b.startMs) <= tolerance && Abs(a.endMs - b.endMs) <= tolerance
  }

  /** operator==: IsSimilar with the configured MinDifferenceMs. */
  predicate Equal(a: LegacyTrimTimes, b: LegacyTrimTimes, tolerance: int) {
    IsSimilar(a, b, tolerance)
  }

  /** What GetTypeHash combines: the exact sound, start and end. */
  function HashKey(t: LegacyTrimTimes): (Option<SoundWave>, int, int) {
    (t.sound, t.startMs, t.endMs)
  }

  lemma InvalidIsNotValid()
    ensures !IsValid(Invalid)
  {
  }

  /** Equality is symmetric, reflexive for a tolerance that is not
      negative, and without tolerance it is plain equality. */
  lemma EqualProperties(a: LegacyTrimTimes, b: LegacyTrimTimes, tolerance: int)
    ensures Equal(a, b, tolerance) <==> Equal(b, a, tolerance)
    ensures tolerance >= 0 ==> Equal(a, a, tolerance)
    ensures tolerance < 0 ==> !Equal(a, b, tolerance)
    ensures Equal(a, b, 0) <==> a == b
  {
    assert Abs(a.startMs - b.startMs) == Abs(b.startMs - a.startMs);
    assert Abs(a.endMs - b.endMs) == Abs(b.endMs - a.endMs);
  }

  /** Equality is not transitive: a chain of close windows drifts. */
  lemma EqualIsNotTransitive()
    ensures var a := LegacyTrimTimes(0, 100, None);
      var b := LegacyTrimTimes(10, 110, None);
      var c := LegacyTrimTimes(20, 120, None);
      Equal(a, b, 10) && Equal(b, c, 10) && !Equal(a, c, 10)
  {
  }

  /** Equal hashes mean identical windows, so windows that compare equal
      under a tolerance but are not identical hash apart. */
  lemma HashIsExact(a: LegacyTrimTimes, b: LegacyTrimTimes, tolerance: int)
    ensures HashKey(a) == HashKey(b) <==> a == b
    ensures Equal(a, b, tolerance) && a != b ==> HashKey(a) != HashKey(b)
  {
  }

  // ---------------------------------------------------------------------------
  // FAudioSectionsContainer

  /** FAudioSectionsContainer::Add: AddUnique, whose index is never
      negative, so the result is always true. */
  function AddSection(s: seq<SectionRef>, x: SectionRef): (r: (bool, seq<SectionRef>))
    ensures r.0
    ensures forall y :: y in r.1 <==> y in s || y == x
    ensures x in s ==> r.1 == s
    ensures NoDup(s) ==> NoDup(r.1)
  {
    (true, AddUnique(s, x))
  }

  // ---------------------------------------------------------------------------
  // FTrimTimesMap

  datatype LegacyEntry = LegacyEntry(key: LegacyTrimTimes, sections: seq<SectionRef>)

  type LegacyMap = seq<LegacyEntry>

  /** The entry TMap lookup finds: equal hash and operator== true; |m| when
      there is none. */
  function FindIndex(m: LegacyMap, k: LegacyTrimTimes, tolerance: int): (i: nat)
    ensures i <= |m|
    ensures i < |m| ==> HashKey(m[i].key) == HashKey(k) && Equal(m[i].key, k, tolerance)
    ensures forall j :: 0 <= j < i ==> !(m[j].key == k && Equal(m[j].key, k, tolerance))
  {
    if |m| == 0 then 0
    else if HashKey(m[0].key) == HashKey(k) && Equal(m[0].key, k, tolerance) then 0
    else
      var i := 1 + FindIndex(m[1..], k, tolerance);
      assert forall j :: 1 <= j < |m| ==> m[j] == m[1..][j - 1];
      i
  }

  /** FTrimTimesMap::Add: FindOrAdd on the window, then the section is
      added to its container. */
  function Add(m: LegacyMap, k: LegacyTrimTimes, s: SectionRef, tolerance: int): (r: (bool, LegacyMap))
    ensures r.0
  {
    var i := FindIndex(m, k, tolerance);
    if i < |m| then (true, m[i := LegacyEntry(m[i].key, AddSection(m[i].sections, s).1)])
    else (true, m + [LegacyEntry(k, AddSection([], s).1)])
  }

  /** With a tolerance that is not negative, Add finds the window's own
      entry when the map holds that exact window and appends one otherwise;
      either way the entry holds the section, and the other entries are
      unchanged. */
  lemma AddStores(m: LegacyMap, k: LegacyTrimTimes, s: SectionRef, tolerance: int)
    requires tolerance >= 0
    ensures var r := Add(m, k, s, tolerance).1;
      var i := FindIndex(m, k, tolerance);
      && |r| == (if i < |m| then |m| else |m| + 1)
      && (i < |m| <==> exists j :: 0 <= j < |m| && m[j].key == k)
      && r[i].key == k && s in r[i].sections
      && forall j :: 0 <= j < |m| && j != i ==> r[j] == m[j]
  {
    var i := FindIndex(m, k, tolerance);
    if exists j :: 0 <= j < |m| && m[j].key == k {
      var j :| 0 <= j < |m| && m[j].key == k;
      EqualProperties(k, k, tolerance);
      assert m[j].key == k && Equal(m[j].key, k, tolerance);
    }
  }

  /** A window equal under the tolerance to a stored one, but not
      identical to any, gets an entry of its own: the exact hash keeps
      lookup from finding the similar window. */
  lemma AddSimilarWindowAppends(m: LegacyMap, k: LegacyTrimTimes, s: SectionRef, tolerance: int)
    requires forall j :: 0 <= j < |m| ==> m[j].key != k
    ensures Add(m, k, s, tolerance).1 == m + [LegacyEntry(k, [s])]
  {
    assert AddUnique([], s) == [s];
  }

  /** A negative tolerance makes every window unequal even to itself, so
      Add appends a new entry every time. */
  lemma AddNegativeToleranceAppends(m: LegacyMap, k: LegacyTrimTimes, s: SectionRef, tolerance: int)
    requires tolerance < 0
    ensures |Add(m, k, s, tolerance).1| == |m| + 1
  {
    forall j | 0 <= j < |m|
      ensures !Equal(m[j].key, k, tolerance)
    {
      EqualProperties(m[j].key, k, tolerance);
    }
  }

  /** Adding the same section under the same window twice stores it
      once. */
  lemma AddTwice(m: LegacyMap, k: LegacyTrimTimes, s: SectionRef, tolerance: int)
    requires tolerance >= 0
    ensures var once := Add(m, k, s, tolerance).1;
      Add(once, k, s, tolerance).1 == once
  {
    var once := Add(m, k, s, tolerance).1;
    AddStores(m, k, s, tolerance);
    var i := FindIndex(m, k, tolerance);
    var j := FindIndex(once, k, tolerance);
    AddStores(once, k, s, tolerance);
    assert once[i].key == k;
    EqualProperties(k, k, tolerance);
    assert j == i;
    assert once[i := LegacyEntry(once[i].key, AddSection(once[i].sections, s).1)] == once;
  }

  /** GetFirstLevelSequence: the level sequence owning the first section of
      the first container. The map must not be empty: the source
      dereferences a null pointer then. */
  function GetFirstLevelSequence(w: World, m: LegacyMap): (r: Option<SequenceId>)
    requires |m| > 0
    ensures r.Some? ==> (|m[0].sections| > 0 && SectionAt(w, m[0].sections[0]).Some?
      && SectionAt(w, m[0].sections[0]).value.owner == r)
    ensures |m[0].sections| > 0 && SectionAt(w, m[0].sections[0]).Some? ==> r == SectionAt(w, m[0].sections[0]).value.owner
  {
    var section := if |m[0].sections| > 0 then m[0].sections[0] else None;
    var sec := SectionAt(w, section);
    if sec.Some? then sec.value.owner else None
  }
}
