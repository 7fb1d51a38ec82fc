/** FLSATTrimTimesMultiMap: each sound wave with its trim-times map, in
    iteration order. The keys are non-null sound waves. */
module TrimTimesMultiMap {
  import opened Wrappers
  import opened Engine
  import opened Arrays
  import opened TrimTimes
  import opened TrimMap

  datatype SoundEntry = SoundEntry(sound: SoundWave, times: TrimTimesMap)

  type MultiMap = seq<SoundEntry>

  predicate DistinctSounds(mm: MultiMap) {
    forall i, j :: 0 <= i < j < |mm| ==> mm[i].sound != mm[j].sound
  }

  predicate HasSound(mm: MultiMap, s: SoundWave) {
    exists i :: 0 <= i < |mm| && mm[i].sound == s
  }

  /** Num of the header. */
  function Num(mm: MultiMap): (n: nat)
    ensures n == 0 <==> mm == []
  {
    |mm|
  }

  /** IsEmpty of the header. */
  function IsEmpty(mm: MultiMap): (r: bool)
    ensures r <==> Num(mm) == 0
  {
    |mm| == 0
  }

  /** Where TMap lookup finds the sound, or |mm| when it is absent. */
  function IndexOfSound(mm: MultiMap, s: SoundWave): (i: nat)
    ensures i <= |mm|
    ensures i < |mm| ==> mm[i].sound == s
    ensures forall j :: 0 <= j < i ==> mm[j].sound != s
    ensures i == |mm| <==> !HasSound(mm, s)
  {
    if |mm| == 0 then 0
    else if mm[0].sound == s then 0
    else 1 + IndexOfSound(mm[1..], s)
  }

  /** FindOrAdd of the header: the sound's map, or a new empty map appended
      under the sound; the entries already present stay as they are. */
  function FindOrAdd(mm: MultiMap, s: SoundWave): (r: (MultiMap, TrimTimesMap))
    ensures |mm| <= |r.0| <= |mm| + 1 && r.0[..|mm|] == mm
    ensures IndexOfSound(r.0, s) < |r.0| && r.0[IndexOfSound(r.0, s)].times == r.1
    ensures HasSound(mm, s) ==> r.0 == mm
    ensures !HasSound(mm, s) ==> r.1 == [] && r.0 == mm + [SoundEntry(s, [])]
    ensures DistinctSounds(mm) ==> DistinctSounds(r.0)
  {
    var i := IndexOfSound(mm, s);
    if i < |mm| then (mm, mm[i].times)
    else
      var r := mm + [SoundEntry(s, [])];
      assert r[|mm|].sound == s;
      (r, [])
  }

  /** Writes back the map of a sound obtained by FindOrAdd, as the callers do
      by mutating the reference it returns. */
  function SetTimes(mm: MultiMap, s: SoundWave, times: TrimTimesMap): (r: MultiMap)
    ensures |r| == (if HasSound(mm, s) then |mm| else |mm| + 1)
    ensures IndexOfSound(r, s) < |r| && r[IndexOfSound(r, s)] == SoundEntry(s, times)
  {
    var added := FindOrAdd(mm, s).0;
    var i := IndexOfSound(added, s);
    var r := added[i := SoundEntry(s, times)];
    IndexOfSoundAt(r, s, i);
    r
  }

  /** The write-back leaves the entries of the other sounds alone. */
  lemma SetTimesKeeps(mm: MultiMap, s: SoundWave, times: TrimTimesMap)
    ensures forall j :: 0 <= j < |mm| && mm[j].sound != s ==> SetTimes(mm, s, times)[j] == mm[j]
  {
  }

  /** The write-back keeps the sound of every position and appends the
      written sound when it was absent. */
  lemma SetTimesSoundsAt(mm: MultiMap, s: SoundWave, times: TrimTimesMap)
    ensures |mm| <= |SetTimes(mm, s, times)| <= |mm| + 1
    ensures forall j :: 0 <= j < |mm| ==> SetTimes(mm, s, times)[j].sound == mm[j].sound
    ensures |SetTimes(mm, s, times)| == |mm| || SetTimes(mm, s, times)[|mm|].sound == s
  {
    var added := FindOrAdd(mm, s).0;
    assert forall j :: 0 <= j < |mm| ==> added[..|mm|][j] == added[j];
  }

  /** The write-back keeps one entry per sound. */
  lemma SetTimesDistinct(mm: MultiMap, s: SoundWave, times: TrimTimesMap)
    requires DistinctSounds(mm)
    ensures DistinctSounds(SetTimes(mm, s, times))
  {
    var r := SetTimes(mm, s, times);
    SetTimesSoundsAt(mm, s, times);
    if |r| > |mm| {
      assert !HasSound(mm, s);
    }
  }

  /** The write-back holds the sounds held before and the written one. */
  lemma SetTimesSounds(mm: MultiMap, s: SoundWave, times: TrimTimesMap)
    ensures forall x :: HasSound(SetTimes(mm, s, times), x) <==> HasSound(mm, x) || x == s
  {
    var r := SetTimes(mm, s, times);
    SetTimesSoundsAt(mm, s, times);
    forall x
      ensures HasSound(r, x) <==> HasSound(mm, x) || x == s
    {
      if x == s {
        assert r[IndexOfSound(r, s)].sound == s;
      } else if HasSound(mm, x) {
        var j :| 0 <= j < |mm| && mm[j].sound == x;
        assert r[j].sound == x;
      }
    }
  }

  /** After the write-back, lookup finds the written map under the written
      sound and the old map under every other sound. */
  lemma SetTimesLookup(mm: MultiMap, s: SoundWave, times: TrimTimesMap, x: SoundWave)
    ensures FindOrAdd(SetTimes(mm, s, times), x).1 == if x == s then times else FindOrAdd(mm, x).1
  {
    var r := SetTimes(mm, s, times);
    SetTimesSounds(mm, s, times);
    if x != s && HasSound(mm, x) {
      var i := IndexOfSound(mm, x);
      SetTimesKeeps(mm, s, times);
      SetTimesSoundsAt(mm, s, times);
      assert r[i] == mm[i];
      IndexOfSoundAt(r, x, i);
    }
  }

  /** An entry appended for a sound the multimap lacks is where FindOrAdd
      and the write-back find that sound. */
  lemma AppendedSound(a: MultiMap, d: SoundWave, x: TrimTimesMap, y: TrimTimesMap)
    requires !HasSound(a, d)
    ensures FindOrAdd(a, d).1 == []
    ensures FindOrAdd(a + [SoundEntry(d, x)], d).1 == x
    ensures SetTimes(a, d, y) == a + [SoundEntry(d, y)]
    ensures SetTimes(a + [SoundEntry(d, x)], d, y) == a + [SoundEntry(d, y)]
  {
    var b := a + [SoundEntry(d, x)];
    IndexOfSoundAt(b, d, |a|);
    assert b[..|a|] == a;
    assert b[|a| := SoundEntry(d, y)] == a + [SoundEntry(d, y)];
    var c := a + [SoundEntry(d, [])];
    IndexOfSoundAt(c, d, |a|);
    assert c[|a| := SoundEntry(d, y)] == a + [SoundEntry(d, y)];
  }

  /** Lookup finds the first entry of the sound. */
  lemma IndexOfSoundAt(mm: MultiMap, s: SoundWave, i: nat)
    requires i < |mm| && mm[i].sound == s
    requires forall j :: 0 <= j < i ==> mm[j].sound != s
    ensures IndexOfSound(mm, s) == i
  {
    assert HasSound(mm, s);
  }

  /** Every sound wave of the multimap was created before `next`. */
  predicate IdsBelow(mm: MultiMap, next: nat) {
    forall i :: 0 <= i < |mm| ==> mm[i].sound.id < next
  }

  /** What the passes keep: one entry per sound wave, every sound wave older
      than the next fresh one, distinct keys in every window map. */
  predicate WellFormed(mm: MultiMap, w: World, tolerance: Tolerance) {
    && DistinctSounds(mm)
    && IdsBelow(mm, w.nextSoundId)
    && forall i :: 0 <= i < |mm| ==> DistinctKeys(mm[i].times, tolerance)
  }

  /** Remove(SoundWave): the entry of that sound goes, the others stay in
      order. */
  function RemoveSound(mm: MultiMap, s: SoundWave): (r: MultiMap)
    ensures |r| <= |mm|
  {
    if |mm| == 0 then []
    else (if mm[0].sound == s then [] else [mm[0]]) + RemoveSound(mm[1..], s)
  }

  /** Removal distributes over concatenation. */
  lemma {:induction false} RemoveSoundConcat(a: MultiMap, b: MultiMap, s: SoundWave)
    ensures RemoveSound(a + b, s) == RemoveSound(a, s) + RemoveSound(b, s)
  {
    if |a| > 0 {
      assert (a + b)[1..] == a[1..] + b;
      RemoveSoundConcat(a[1..], b, s);
    } else {
      assert a + b == b;
    }
  }

  /** Remove keeps exactly the other sounds' entries, in order. */
  lemma RemoveSoundContents(mm: MultiMap, s: SoundWave)
    ensures forall e :: e in RemoveSound(mm, s) <==> e in mm && e.sound != s
    ensures !HasSound(mm, s) ==> RemoveSound(mm, s) == mm
    ensures DistinctSounds(mm) ==> DistinctSounds(RemoveSound(mm, s))
  {
    RemoveSoundMembers(mm, s);
    if !HasSound(mm, s) {
      RemoveSoundAbsent(mm, s);
    }
    if DistinctSounds(mm) {
      RemoveSoundDistinct(mm, s);
    }
  }

  lemma {:induction false} RemoveSoundMembers(mm: MultiMap, s: SoundWave)
    ensures forall e :: e in RemoveSound(mm, s) <==> e in mm && e.sound != s
  {
    if |mm| > 0 {
      RemoveSoundMembers(mm[1..], s);
      assert mm == [mm[0]] + mm[1..];
    }
  }

  lemma {:induction false} RemoveSoundAbsent(mm: MultiMap, s: SoundWave)
    requires !HasSound(mm, s)
    ensures RemoveSound(mm, s) == mm
  {
    if |mm| > 0 {
      var tail := mm[1..];
      assert !HasSound(tail, s) by {
        forall j | 0 <= j < |tail|
          ensures tail[j].sound != s
        {
          assert tail[j] == mm[j + 1];
        }
      }
      RemoveSoundAbsent(tail, s);
      assert mm == [mm[0]] + tail;
    }
  }

  lemma {:induction false} RemoveSoundDistinct(mm: MultiMap, s: SoundWave)
    requires DistinctSounds(mm)
    ensures DistinctSounds(RemoveSound(mm, s))
  {
    if |mm| > 0 {
      var tail := mm[1..];
      assert DistinctSounds(tail) by {
        forall a, b | 0 <= a < b < |tail|
          ensures tail[a].sound != tail[b].sound
        {
          assert tail[a] == mm[a + 1] && tail[b] == mm[b + 1];
        }
      }
      RemoveSoundDistinct(tail, s);
      var rt := RemoveSound(tail, s);
      if mm[0].sound != s {
        RemoveSoundMembers(tail, s);
        var r := [mm[0]] + rt;
        assert RemoveSound(mm, s) == r;
        forall a, b | 0 <= a < b < |r|
          ensures r[a].sound != r[b].sound
        {
          assert r[b] == rt[b - 1];
          if a == 0 {
            assert rt[b - 1] in tail;
            var k :| 0 <= k < |tail| && tail[k] == rt[b - 1];
            assert mm[k + 1] == tail[k];
          } else {
            assert r[a] == rt[a - 1];
          }
        }
      }
    }
  }

  /** The multimap after removing each of the sounds in turn. */
  function RemoveAllSpec(mm: MultiMap, sounds: seq<SoundWave>): MultiMap {
    if |sounds| == 0 then mm
    else RemoveSound(RemoveAllSpec(mm, sounds[..|sounds| - 1]), sounds[|sounds| - 1])
  }

  /** Remove(array) deletes exactly the listed sounds, keeps every other
      entry and keeps the sounds distinct. */
  lemma RemoveAllContents(mm: MultiMap, sounds: seq<SoundWave>)
    ensures forall e :: e in RemoveAllSpec(mm, sounds) <==> e in mm && e.sound !in sounds
    ensures DistinctSounds(mm) ==> DistinctSounds(RemoveAllSpec(mm, sounds))
  {
    RemoveAllMembers(mm, sounds);
    if DistinctSounds(mm) {
      RemoveAllDistinct(mm, sounds);
    }
  }

  lemma {:induction false} RemoveAllMembers(mm: MultiMap, sounds: seq<SoundWave>)
    ensures forall e :: e in RemoveAllSpec(mm, sounds) <==> e in mm && e.sound !in sounds
  {
    if |sounds| > 0 {
      var init := sounds[..|sounds| - 1];
      RemoveAllMembers(mm, init);
      RemoveSoundMembers(RemoveAllSpec(mm, init), sounds[|sounds| - 1]);
      assert sounds == init + [sounds[|sounds| - 1]];
    }
  }

  lemma {:induction false} RemoveAllDistinct(mm: MultiMap, sounds: seq<SoundWave>)
    requires DistinctSounds(mm)
    ensures DistinctSounds(RemoveAllSpec(mm, sounds))
  {
    if |sounds| > 0 {
      RemoveAllDistinct(mm, sounds[..|sounds| - 1]);
      RemoveSoundDistinct(RemoveAllSpec(mm, sounds[..|sounds| - 1]), sounds[|sounds| - 1]);
    }
  }

  /** FLSATTrimTimesMultiMap::Remove(array). */
  method Remove(mm: MultiMap, sounds: seq<SoundWave>) returns (r: MultiMap)
    ensures r == RemoveAllSpec(mm, sounds)
    ensures forall e :: e in r <==> e in mm && e.sound !in sounds
  {
    r := mm;
    var i := 0;
    while i < |sounds|
      invariant 0 <= i <= |sounds|
      invariant r == RemoveAllSpec(mm, sounds[..i])
    {
      assert sounds[..i + 1][..i] == sounds[..i];
      r := RemoveSound(r, sounds[i]);
      i := i + 1;
    }
    assert sounds[..i] == sounds;
    RemoveAllContents(mm, sounds);
  }

  /** Some window-and-sections pair of the map satisfies the predicate. */
  predicate AnyPair(m: TrimTimesMap, pred: Entry -> bool) {
    exists j :: 0 <= j < |m| && pred(m[j])
  }

  /** The sounds GetSounds lists for the first entries of the multimap. */
  function SoundsWhere(mm: MultiMap, pred: Entry -> bool): seq<SoundWave> {
    if |mm| == 0 then []
    else
      var prev := SoundsWhere(mm[..|mm| - 1], pred);
      var last := mm[|mm| - 1];
      if AnyPair(last.times, pred) then AddUnique(prev, last.sound) else prev
  }

  /** Some entry of the sound has a pair satisfying the predicate. */
  predicate HasMatch(mm: MultiMap, pred: Entry -> bool, s: SoundWave) {
    exists i :: 0 <= i < |mm| && mm[i].sound == s && AnyPair(mm[i].times, pred)
  }

  /** Each sound is listed at most once, and exactly when one of its pairs
      satisfies the predicate. */
  lemma {:induction false} SoundsWhereContents(mm: MultiMap, pred: Entry -> bool)
    ensures NoDup(SoundsWhere(mm, pred))
    ensures forall s :: s in SoundsWhere(mm, pred) <==> HasMatch(mm, pred, s)
  {
    if |mm| > 0 {
      var init := mm[..|mm| - 1];
      var last := mm[|mm| - 1];
      SoundsWhereContents(init, pred);
      forall s
        ensures HasMatch(mm, pred, s) <==> HasMatch(init, pred, s) || (last.sound == s && AnyPair(last.times, pred))
      {
        if HasMatch(mm, pred, s) {
          var i :| 0 <= i < |mm| && mm[i].sound == s && AnyPair(mm[i].times, pred);
          if i < |init| {
            assert init[i] == mm[i];
          }
        }
        if HasMatch(init, pred, s) {
          var i :| 0 <= i < |init| && init[i].sound == s && AnyPair(init[i].times, pred);
          assert mm[i] == init[i];
        }
      }
    }
  }

  /** FLSATTrimTimesMultiMap::GetSounds: the output array is emptied first,
      then each sound with a matching pair is added once; the inner scan
      stops at the first match. */
  method GetSounds(mm: MultiMap, pred: Entry -> bool, previous: seq<SoundWave>) returns (r: seq<SoundWave>)
    ensures r == SoundsWhere(mm, pred)
    ensures NoDup(r)
    ensures forall s :: s in r <==> HasMatch(mm, pred, s)
  {
    r := previous;
    if |r| != 0 {
      r := [];
    }
    var i := 0;
    while i < |mm|
      invariant 0 <= i <= |mm|
      invariant r == SoundsWhere(mm[..i], pred)
    {
      assert mm[..i + 1][..i] == mm[..i];
      var times := mm[i].times;
      var found := false;
      var j := 0;
      while j < |times|
        invariant 0 <= j <= |times|
        invariant found ==> AnyPair(times, pred)
        invariant !found ==> forall k :: 0 <= k < j ==> !pred(times[k])
      {
        if pred(times[j]) {
          found := true;
          break;
        }
        j := j + 1;
      }
      if found {
        r := AddUnique(r, mm[i].sound);
      }
      i := i + 1;
    }
    assert mm[..i] == mm;
    SoundsWhereContents(mm, pred);
  }
}
