/** HandlePolicyLoopingSounds: sound waves with a window that runs past the
    end of the sound are either dropped altogether or split, the
    non-looping windows moving to one duplicate of the sound wave. */
module LoopingSounds {
  import opened Wrappers
  import opened Engine
  import opened TrimTimes
  import opened SectionsContainer
  import opened TrimMap
  import opened TrimTimesMultiMap
  import opened DuplicateSound
  import opened PolicyTypes

  /** The predicate GetLoopingSounds hands to GetSounds. */
  function LoopingKey(tolerance: Tolerance): Entry -> bool {
    (e: Entry) => IsLooping(e.key, tolerance)
  }

  // ---------------------------------------------------------------------------
  // SkipAll

  /** SkipAll keeps exactly the sound waves without a looping window, so no
      looping window is left. */
  lemma SkipAllContents(mm: MultiMap, tolerance: Tolerance)
    ensures var r := RemoveAllSpec(mm, SoundsWhere(mm, LoopingKey(tolerance)));
      && (forall e :: e in r <==> e in mm && !HasMatch(mm, LoopingKey(tolerance), e.sound))
      && (forall e, j :: e in r && 0 <= j < |e.times| ==> !IsLooping(e.times[j].key, tolerance))
      && (DistinctSounds(mm) ==> DistinctSounds(r))
  {
    var sounds := SoundsWhere(mm, LoopingKey(tolerance));
    var r := RemoveAllSpec(mm, sounds);
    SoundsWhereContents(mm, LoopingKey(tolerance));
    RemoveAllContents(mm, sounds);
  }

  // ---------------------------------------------------------------------------
  // SkipAndDuplicate

  /** The non-looping pairs of a window map, in order. */
  function NonLooping(m: TrimTimesMap, tolerance: Tolerance): TrimTimesMap {
    if |m| == 0 then []
    else
      var last := m[|m| - 1];
      NonLooping(m[..|m| - 1], tolerance) + (if IsLooping(last.key, tolerance) then [] else [last])
  }

  lemma {:induction false} NonLoopingMembers(m: TrimTimesMap, tolerance: Tolerance)
    ensures forall e :: e in NonLooping(m, tolerance) <==> e in m && !IsLooping(e.key, tolerance)
  {
    if |m| > 0 {
      var init := m[..|m| - 1];
      NonLoopingMembers(init, tolerance);
      assert m == init + [m[|m| - 1]];
    }
  }

  lemma {:induction false} NonLoopingEmpty(m: TrimTimesMap, tolerance: Tolerance)
    ensures NonLooping(m, tolerance) == [] <==> forall j :: 0 <= j < |m| ==> IsLooping(m[j].key, tolerance)
  {
    if |m| > 0 {
      var init := m[..|m| - 1];
      NonLoopingEmpty(init, tolerance);
      if NonLooping(m, tolerance) == [] {
        forall j | 0 <= j < |m|
          ensures IsLooping(m[j].key, tolerance)
        {
          if j < |init| {
            assert init[j] == m[j];
          }
        }
      } else {
        forall j | 0 <= j < |init|
          ensures init[j] == m[j]
        {
        }
      }
    }
  }

  lemma {:induction false} NonLoopingDistinct(m: TrimTimesMap, tolerance: Tolerance)
    requires DistinctKeys(m, tolerance)
    ensures DistinctKeys(NonLooping(m, tolerance), tolerance)
  {
    if |m| > 0 {
      var init := m[..|m| - 1];
      var last := m[|m| - 1];
      assert DistinctKeys(init, tolerance);
      NonLoopingDistinct(init, tolerance);
      NonLoopingMembers(init, tolerance);
      var prev := NonLooping(init, tolerance);
      var r := NonLooping(m, tolerance);
      if !IsLooping(last.key, tolerance) {
        forall a, b | 0 <= a < b < |r|
          ensures !KeyEq(r[a].key, r[b].key, tolerance)
        {
          if b == |prev| {
            assert r[a] == prev[a] && prev[a] in init;
            var i :| 0 <= i < |init| && init[i] == prev[a];
            assert m[i] == init[i];
          } else {
            assert r[a] == prev[a] && r[b] == prev[b];
          }
        }
      }
    }
  }

  /** The windows that get moved are exactly the non-looping ones, none are
      moved exactly when all loop, and distinct keys stay distinct. */
  lemma NonLoopingContents(m: TrimTimesMap, tolerance: Tolerance)
    ensures forall e :: e in NonLooping(m, tolerance) <==> e in m && !IsLooping(e.key, tolerance)
    ensures NonLooping(m, tolerance) == [] <==> forall j :: 0 <= j < |m| ==> IsLooping(m[j].key, tolerance)
    ensures DistinctKeys(m, tolerance) ==> DistinctKeys(NonLooping(m, tolerance), tolerance)
  {
    NonLoopingMembers(m, tolerance);
    NonLoopingEmpty(m, tolerance);
    if DistinctKeys(m, tolerance) {
      NonLoopingDistinct(m, tolerance);
    }
  }

  /** The state the inner loop threads: the multimap, the world and the
      duplicate made so far. */
  datatype Progress = Progress(mm: MultiMap, w: World, dup: Option<SoundWave>)

  /** One pair of the looping sound's map: a looping window stays; any
      other window makes the duplicate if there is none yet, gives its
      sections the duplicate and is stored under the duplicate. */
  function MoveStep(p: Progress, original: SoundWave, e: Entry, tolerance: Tolerance): Progress {
    if IsLooping(e.key, tolerance) then p
    else
      var made := if p.dup.Some? then (p.dup, p.w) else DuplicateSoundWave(p.w, original, 1);
      var dup := made.0.value;
      var times := Put(FindOrAdd(p.mm, dup).1, e.key, e.sections, tolerance);
      Progress(SetTimes(p.mm, dup, times), SetSoundSpec(made.1, e.sections, Some(dup)), Some(dup))
  }

  function MoveAll(p: Progress, original: SoundWave, entries: TrimTimesMap, tolerance: Tolerance): Progress {
    if |entries| == 0 then p
    else MoveStep(MoveAll(p, original, entries[..|entries| - 1], tolerance), original, entries[|entries| - 1], tolerance)
  }

  /** One looping sound: its pairs are moved, and the sound goes when its
      map is empty or a duplicate was made. */
  function LoopingSoundStep(mm: MultiMap, w: World, original: SoundWave, tolerance: Tolerance): (MultiMap, World) {
    var found := FindOrAdd(mm, original);
    var p := MoveAll(Progress(found.0, w, None), original, found.1, tolerance);
    (if |found.1| == 0 || p.dup.Some? then RemoveSound(p.mm, original) else p.mm, p.w)
  }

  function DuplicateAllSpec(mm: MultiMap, w: World, sounds: seq<SoundWave>, tolerance: Tolerance): (MultiMap, World) {
    if |sounds| == 0 then (mm, w)
    else
      var prev := DuplicateAllSpec(mm, w, sounds[..|sounds| - 1], tolerance);
      LoopingSoundStep(prev.0, prev.1, sounds[|sounds| - 1], tolerance)
  }

  /** What HandlePolicyLoopingSounds leaves. */
  function LoopingPolicySpec(mm: MultiMap, w: World, policy: LoopingPolicy, tolerance: Tolerance): (MultiMap, World) {
    var sounds := SoundsWhere(mm, LoopingKey(tolerance));
    if |sounds| == 0 then (mm, w)
    else match policy
      case SkipAll => (RemoveAllSpec(mm, sounds), w)
      case SkipAndDuplicate => DuplicateAllSpec(mm, w, sounds, tolerance)
  }

  method HandlePolicyLoopingSounds(mm: MultiMap, w: World, policy: LoopingPolicy, tolerance: Tolerance)
    returns (r: MultiMap, w': World)
    ensures (r, w') == LoopingPolicySpec(mm, w, policy, tolerance)
  {
    var sounds := GetSounds(mm, LoopingKey(tolerance), []);
    if |sounds| == 0 {
      return mm, w;
    }
    match policy
    case SkipAll =>
      r := Remove(mm, sounds);
      w' := w;
    case SkipAndDuplicate =>
      r, w' := DuplicateLoopingSounds(mm, w, sounds, tolerance);
  }

  /** The SkipAndDuplicate loop over the looping sound waves. */
  method DuplicateLoopingSounds(mm: MultiMap, w: World, sounds: seq<SoundWave>, tolerance: Tolerance)
    returns (r: MultiMap, w': World)
    ensures (r, w') == DuplicateAllSpec(mm, w, sounds, tolerance)
  {
    r, w' := mm, w;
    var k := 0;
    while k < |sounds|
      invariant 0 <= k <= |sounds|
      invariant (r, w') == DuplicateAllSpec(mm, w, sounds[..k], tolerance)
    {
      DuplicateAllSnoc(mm, w, sounds, k, tolerance);
      r, w' := DuplicateLoopingSound(r, w', sounds[k], tolerance);
      k := k + 1;
    }
    assert sounds[..k] == sounds;
  }

  lemma DuplicateAllSnoc(mm: MultiMap, w: World, sounds: seq<SoundWave>, k: nat, tolerance: Tolerance)
    requires k < |sounds|
    ensures DuplicateAllSpec(mm, w, sounds[..k + 1], tolerance) ==
      var prev := DuplicateAllSpec(mm, w, sounds[..k], tolerance);
      LoopingSoundStep(prev.0, prev.1, sounds[k], tolerance)
  {
    assert sounds[..k + 1][..k] == sounds[..k];
  }

  lemma MoveAllSnoc(p: Progress, original: SoundWave, times: TrimTimesMap, j: nat, tolerance: Tolerance)
    requires j < |times|
    ensures MoveAll(p, original, times[..j + 1], tolerance) == MoveStep(MoveAll(p, original, times[..j], tolerance), original, times[j], tolerance)
  {
    assert times[..j + 1][..j] == times[..j];
  }

  /** The body of the SkipAndDuplicate loop for one looping sound wave. */
  method DuplicateLoopingSound(mm: MultiMap, w: World, original: SoundWave, tolerance: Tolerance)
    returns (r: MultiMap, w': World)
    ensures (r, w') == LoopingSoundStep(mm, w, original, tolerance)
  {
    var found := FindOrAdd(mm, original);
    var times := found.1;
    var cur, world, dup := found.0, w, None;
    var j := 0;
    while j < |times|
      invariant 0 <= j <= |times|
      invariant Progress(cur, world, dup) == MoveAll(Progress(found.0, w, None), original, times[..j], tolerance)
    {
      MoveAllSnoc(Progress(found.0, w, None), original, times, j, tolerance);
      var e := times[j];
      if !IsLooping(e.key, tolerance) {
        if dup.None? {
          var made := DuplicateSoundWave(world, original, 1);
          dup, world := made.0, made.1;
        }
        world := SectionsContainer.SetSound(world, e.sections, dup);
        var inner := FindOrAdd(cur, dup.value).1;
        cur := SetTimes(cur, dup.value, Put(inner, e.key, e.sections, tolerance));
      }
      j := j + 1;
    }
    assert times[..j] == times;
    if |times| == 0 || dup.Some? {
      cur := RemoveSound(cur, original);
    }
    r, w' := cur, world;
  }

  /** The duplicate SkipAndDuplicate makes of a sound wave. */
  function DupOf(w: World, original: SoundWave): SoundWave {
    DuplicateSoundWave(w, original, 1).0.value
  }

  /** The inner loop's state once the non-looping pairs `nl` have been
      moved. */
  function Moved(mm0: MultiMap, w: World, original: SoundWave, nl: TrimTimesMap): Progress {
    if nl == [] then Progress(mm0, w, None)
    else
      var d := DupOf(w, original);
      Progress(mm0 + [SoundEntry(d, nl)], SetSoundSpec(DuplicateSoundWave(w, original, 1).1, AllSections(nl), Some(d)), Some(d))
  }

  /** Moving one more non-looping pair whose key is new. */
  lemma MoveStepMoved(mm0: MultiMap, w: World, original: SoundWave, nl: TrimTimesMap, e: Entry, tolerance: Tolerance)
    requires !IsLooping(e.key, tolerance) && !HasKey(nl, e.key, tolerance)
    requires !HasSound(mm0, DupOf(w, original))
    ensures MoveStep(Moved(mm0, w, original, nl), original, e, tolerance) == Moved(mm0, w, original, nl + [e])
  {
    var d := DupOf(w, original);
    var wd := DuplicateSoundWave(w, original, 1).1;
    PutAbsent(nl, e.key, e.sections, tolerance);
    AppendedSound(mm0, d, nl, nl + [e]);
    assert (nl + [e])[..|nl|] == nl;
    if nl == [] {
      assert AllSections(nl + [e]) == e.sections;
    } else {
      SetSoundSpecConcat(wd, AllSections(nl), e.sections, Some(d));
    }
  }

  /** The last key of a map with distinct keys is not among the earlier
      non-looping ones. */
  lemma NonLoopingLastFree(entries: TrimTimesMap, tolerance: Tolerance)
    requires |entries| > 0 && DistinctKeys(entries, tolerance)
    ensures !HasKey(NonLooping(entries[..|entries| - 1], tolerance), entries[|entries| - 1].key, tolerance)
  {
    var init := entries[..|entries| - 1];
    var prev := NonLooping(init, tolerance);
    NonLoopingContents(init, tolerance);
    forall i | 0 <= i < |prev|
      ensures !KeyEq(prev[i].key, entries[|entries| - 1].key, tolerance)
    {
      assert prev[i] in init;
      var a :| 0 <= a < |init| && init[a] == prev[i];
      assert entries[a] == init[a];
    }
  }

  /** The inner loop in closed form: nothing happens without a non-looping
      window; otherwise exactly one duplicate is made, it receives every
      non-looping pair in order, and their sections get the duplicate. */
  lemma {:induction false} MoveAllClosed(mm0: MultiMap, w: World, original: SoundWave, entries: TrimTimesMap, tolerance: Tolerance)
    requires DistinctKeys(entries, tolerance)
    requires !HasSound(mm0, DupOf(w, original))
    ensures MoveAll(Progress(mm0, w, None), original, entries, tolerance) == Moved(mm0, w, original, NonLooping(entries, tolerance))
  {
    if |entries| > 0 {
      var init := entries[..|entries| - 1];
      var e := entries[|entries| - 1];
      assert DistinctKeys(init, tolerance);
      MoveAllClosed(mm0, w, original, init, tolerance);
      var prev := NonLooping(init, tolerance);
      if !IsLooping(e.key, tolerance) {
        NonLoopingLastFree(entries, tolerance);
        MoveStepMoved(mm0, w, original, prev, e, tolerance);
        assert NonLooping(entries, tolerance) == prev + [e];
      } else {
        assert NonLooping(entries, tolerance) == prev;
        assert MoveStep(Moved(mm0, w, original, prev), original, e, tolerance) == Moved(mm0, w, original, prev);
      }
    }
  }
  /** One looping sound in closed form: without a non-looping window the
      world is unchanged and the sound stays unless its map is empty;
      otherwise the sound's entry is replaced, at the end, by one fresh
      duplicate holding the non-looping pairs, whose sections now play the
      duplicate. */
  lemma LoopingSoundStepContents(mm: MultiMap, w: World, original: SoundWave, tolerance: Tolerance)
    requires WellFormed(mm, w, tolerance)
    ensures var r := LoopingSoundStep(mm, w, original, tolerance);
      var times := FindOrAdd(mm, original).1;
      var nl := NonLooping(times, tolerance);
      var d := DupOf(w, original);
      && (nl == [] ==> r.1 == w && r.0 == (if |times| == 0 then RemoveSound(mm, original) else mm))
      && (nl != [] ==> && d.id == w.nextSoundId && d.name == DuplicateName(original.name, 1)
                       && r.0 == RemoveSound(mm, original) + [SoundEntry(d, nl)]
                       && r.1 == SetSoundSpec(DuplicateSoundWave(w, original, 1).1, AllSections(nl), Some(d)))
  {
    var found := FindOrAdd(mm, original);
    var d := DupOf(w, original);
    if HasSound(mm, original) {
      var i := IndexOfSound(mm, original);
      assert !HasSound(mm, d) by {
        forall j | 0 <= j < |mm|
          ensures mm[j].sound != d
        {
        }
      }
      MoveAllClosed(mm, w, original, found.1, tolerance);
      var nl := NonLooping(found.1, tolerance);
      if nl != [] {
        assert original.id < w.nextSoundId;
        RemoveSoundConcat(mm, [SoundEntry(d, nl)], original);
        assert RemoveSound([SoundEntry(d, nl)], original) == [SoundEntry(d, nl)] by {
          assert [SoundEntry(d, nl)][1..] == [];
        }
      }
    } else {
      RemoveSoundConcat(mm, [SoundEntry(original, [])], original);
      assert RemoveSound([SoundEntry(original, [])], original) == [] by {
        assert [SoundEntry(original, [])][1..] == [];
      }
      RemoveSoundContents(mm, original);
    }
  }

  /** The looping sound stays exactly when it was there, its map is not
      empty and every window of it loops. */
  lemma LoopingSoundKept(mm: MultiMap, w: World, original: SoundWave, tolerance: Tolerance)
    requires WellFormed(mm, w, tolerance)
    ensures var times := FindOrAdd(mm, original).1;
      HasSound(LoopingSoundStep(mm, w, original, tolerance).0, original) <==>
        HasSound(mm, original) && |times| > 0 && forall j :: 0 <= j < |times| ==> IsLooping(times[j].key, tolerance)
  {
    var r := LoopingSoundStep(mm, w, original, tolerance);
    var times := FindOrAdd(mm, original).1;
    LoopingSoundStepContents(mm, w, original, tolerance);
    NonLoopingEmpty(times, tolerance);
    if NonLooping(times, tolerance) == [] {
      if |times| == 0 {
        assert r.0 == RemoveSound(mm, original) + [];
        RemovedHasNoSound(mm, original, []);
      } else {
        assert HasSound(mm, original);
        assert r.0 == mm;
      }
    } else {
      assert HasSound(mm, original);
      assert original.id < w.nextSoundId;
      RemovedHasNoSound(mm, original, [SoundEntry(DupOf(w, original), NonLooping(times, tolerance))]);
    }
  }

  /** After a sound wave is removed, appending entries of other sound waves
      does not bring it back. */
  lemma RemovedHasNoSound(mm: MultiMap, s: SoundWave, tail: MultiMap)
    requires forall j :: 0 <= j < |tail| ==> tail[j].sound != s
    ensures !HasSound(RemoveSound(mm, s) + tail, s)
  {
    RemoveSoundContents(mm, s);
    var r := RemoveSound(mm, s) + tail;
    forall i | 0 <= i < |r|
      ensures r[i].sound != s
    {
      if i < |RemoveSound(mm, s)| {
        assert r[i] in RemoveSound(mm, s);
      }
    }
  }

  /** Removing a sound wave keeps the multimap well formed. */
  lemma RemoveSoundWellFormed(mm: MultiMap, w: World, s: SoundWave, tolerance: Tolerance)
    requires WellFormed(mm, w, tolerance)
    ensures WellFormed(RemoveSound(mm, s), w, tolerance)
    ensures forall e :: e in mm && e.sound != s ==> e in RemoveSound(mm, s)
  {
    RemoveSoundContents(mm, s);
    var rest := RemoveSound(mm, s);
    forall i | 0 <= i < |rest|
      ensures rest[i].sound.id < w.nextSoundId && DistinctKeys(rest[i].times, tolerance)
    {
      assert rest[i] in rest;
      var k :| 0 <= k < |mm| && mm[k] == rest[i];
    }
  }

  /** Appending the entry of a freshly made sound wave keeps the multimap
      well formed. */
  lemma AppendFreshWellFormed(mm: MultiMap, w: World, w': World, d: SoundWave, times: TrimTimesMap, tolerance: Tolerance)
    requires WellFormed(mm, w, tolerance) && DistinctKeys(times, tolerance)
    requires d.id == w.nextSoundId && w'.nextSoundId == w.nextSoundId + 1
    ensures WellFormed(mm + [SoundEntry(d, times)], w', tolerance)
  {
    var r := mm + [SoundEntry(d, times)];
    forall i | 0 <= i < |mm|
      ensures r[i].sound != d
    {
    }
  }

  /** One looping sound keeps the multimap well formed, makes at most one
      sound wave and keeps the entries of the other sound waves. */
  lemma LoopingSoundStepWellFormed(mm: MultiMap, w: World, original: SoundWave, tolerance: Tolerance)
    requires WellFormed(mm, w, tolerance)
    ensures var r := LoopingSoundStep(mm, w, original, tolerance);
      WellFormed(r.0, r.1, tolerance) && w.nextSoundId <= r.1.nextSoundId <= w.nextSoundId + 1
      && forall e :: e in mm && e.sound != original ==> e in r.0
  {
    var r := LoopingSoundStep(mm, w, original, tolerance);
    var times := FindOrAdd(mm, original).1;
    var nl := NonLooping(times, tolerance);
    LoopingSoundStepContents(mm, w, original, tolerance);
    RemoveSoundWellFormed(mm, w, original, tolerance);
    if nl != [] {
      var i0 := IndexOfSound(mm, original);
      assert DistinctKeys(times, tolerance) by { assert times == mm[i0].times; }
      NonLoopingContents(times, tolerance);
      AppendFreshWellFormed(RemoveSound(mm, original), w, r.1, DupOf(w, original), nl, tolerance);
    }
  }

  /** SkipAndDuplicate over all looping sounds keeps the multimap well
      formed, keeps the entry of every other sound wave, and makes at most
      one duplicate per looping sound. */
  lemma {:induction false} DuplicateAllContents(mm: MultiMap, w: World, sounds: seq<SoundWave>, tolerance: Tolerance)
    requires WellFormed(mm, w, tolerance)
    ensures var r := DuplicateAllSpec(mm, w, sounds, tolerance);
      && WellFormed(r.0, r.1, tolerance)
      && w.nextSoundId <= r.1.nextSoundId <= w.nextSoundId + |sounds|
      && forall e :: e in mm && e.sound !in sounds ==> e in r.0
  {
    if |sounds| > 0 {
      var init := sounds[..|sounds| - 1];
      DuplicateAllContents(mm, w, init, tolerance);
      var prev := DuplicateAllSpec(mm, w, init, tolerance);
      LoopingSoundStepWellFormed(prev.0, prev.1, sounds[|sounds| - 1], tolerance);
    }
  }

  /** Both policies keep the multimap well formed; SkipAll also leaves no
      looping window. */
  lemma LoopingPolicyWellFormed(mm: MultiMap, w: World, policy: LoopingPolicy, tolerance: Tolerance)
    requires WellFormed(mm, w, tolerance)
    ensures var r := LoopingPolicySpec(mm, w, policy, tolerance);
      && WellFormed(r.0, r.1, tolerance)
      && (policy == LoopingPolicy.SkipAll ==>
            r.1 == w && forall e, j :: e in r.0 && 0 <= j < |e.times| ==> !IsLooping(e.times[j].key, tolerance))
  {
    var sounds := SoundsWhere(mm, LoopingKey(tolerance));
    var r := LoopingPolicySpec(mm, w, policy, tolerance);
    if |sounds| == 0 {
      SoundsWhereContents(mm, LoopingKey(tolerance));
      SkipAllContents(mm, tolerance);
      RemoveAllContents(mm, sounds);
      assert forall e :: e in r.0 <==> e in RemoveAllSpec(mm, sounds);
    } else if policy == LoopingPolicy.SkipAll {
      SkipAllContents(mm, tolerance);
      RemoveAllContents(mm, sounds);
      forall i | 0 <= i < |r.0|
        ensures r.0[i].sound.id < w.nextSoundId && DistinctKeys(r.0[i].times, tolerance)
      {
        assert r.0[i] in r.0;
        var k :| 0 <= k < |mm| && mm[k] == r.0[i];
      }
    } else {
      DuplicateAllContents(mm, w, sounds, tolerance);
    }
  }

  /** The looping policy makes no export attempt and records nothing but
      duplications. */
  lemma {:induction false} MoveAllOnlyDuplicated(p: Progress, original: SoundWave, entries: TrimTimesMap, tolerance: Tolerance)
    ensures OnlyDuplicated(p.w, MoveAll(p, original, entries, tolerance).w)
  {
    if |entries| > 0 {
      var prev := MoveAll(p, original, entries[..|entries| - 1], tolerance);
      MoveAllOnlyDuplicated(p, original, entries[..|entries| - 1], tolerance);
      MoveStepOnlyDuplicated(prev, original, entries[|entries| - 1], tolerance);
      OnlyDuplicatedTrans(p.w, prev.w, MoveAll(p, original, entries, tolerance).w);
    } else {
      assert p.w.trace[..|p.w.trace|] == p.w.trace;
    }
  }

  lemma MoveStepOnlyDuplicated(p: Progress, original: SoundWave, e: Entry, tolerance: Tolerance)
    ensures OnlyDuplicated(p.w, MoveStep(p, original, e, tolerance).w)
  {
    assert p.w.trace[..|p.w.trace|] == p.w.trace;
    if !IsLooping(e.key, tolerance) && p.dup.None? {
      var made := DuplicateSoundWave(p.w, original, 1);
      assert made.1.trace[..|p.w.trace|] == p.w.trace;
    }
  }

  lemma {:induction false} DuplicateAllOnlyDuplicated(mm: MultiMap, w: World, sounds: seq<SoundWave>, tolerance: Tolerance)
    ensures OnlyDuplicated(w, DuplicateAllSpec(mm, w, sounds, tolerance).1)
  {
    if |sounds| > 0 {
      var prev := DuplicateAllSpec(mm, w, sounds[..|sounds| - 1], tolerance);
      DuplicateAllOnlyDuplicated(mm, w, sounds[..|sounds| - 1], tolerance);
      var found := FindOrAdd(prev.0, sounds[|sounds| - 1]);
      MoveAllOnlyDuplicated(Progress(found.0, prev.1, None), sounds[|sounds| - 1], found.1, tolerance);
      OnlyDuplicatedTrans(w, prev.1, DuplicateAllSpec(mm, w, sounds, tolerance).1);
    }
  }

  lemma LoopingPolicyOnlyDuplicated(mm: MultiMap, w: World, policy: LoopingPolicy, tolerance: Tolerance)
    ensures OnlyDuplicated(w, LoopingPolicySpec(mm, w, policy, tolerance).1)
  {
    DuplicateAllOnlyDuplicated(mm, w, SoundsWhere(mm, LoopingKey(tolerance)), tolerance);
  }
}
