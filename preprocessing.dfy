/** The first two preprocessing passes of the trimmer: collect the windows
    of every sound wave used in the requested level sequence, then add the
    windows of the same sound waves in the other level sequences that use
    them. Neither pass changes the world. */
module Preprocessing {
  import opened Wrappers
  import opened Engine
  import opened TrimTimes
  import opened SectionsContainer
  import opened TrimMap
  import opened TrimTimesMultiMap
  import opened AudioSections

  // ---------------------------------------------------------------------------
  // HandleSoundsInRequestedLevelSequence

  /** Each group's sound is found or added, and the windows of its sections
      are added to the sound's map. */
  function MergeGroups(w: World, mm: MultiMap, groups: SoundSections, tolerance: Tolerance): MultiMap {
    if |groups| == 0 then mm
    else
      var prev := MergeGroups(w, mm, groups[..|groups| - 1], tolerance);
      MergeGroup(w, prev, groups[|groups| - 1], tolerance)
  }

  /** One group: the sound's map, found or added, receives the windows of
      the group's sections. */
  function MergeGroup(w: World, mm: MultiMap, g: Group, tolerance: Tolerance): MultiMap {
    SetTimes(mm, g.sound, CalcAllSpec(w, FindOrAdd(mm, g.sound).1, g.sections, tolerance))
  }

  /** Nothing for a null level sequence or one without audio sections. */
  function HandleRequestedSpec(w: World, h: Host, mm: MultiMap, sequence: Option<SequenceId>, tolerance: Tolerance): MultiMap {
    if sequence.None? then mm
    else
      var groups := FindAudioSectionsSpec(w, h, sequence, []);
      if |groups| == 0 then mm else MergeGroups(w, mm, groups, tolerance)
  }

  method HandleSoundsInRequestedLevelSequence(w: World, h: Host, mm: MultiMap, sequence: Option<SequenceId>, tolerance: Tolerance)
    returns (r: MultiMap)
    ensures r == HandleRequestedSpec(w, h, mm, sequence, tolerance)
  {
    if sequence.None? {
      return mm;
    }
    var groups := FindAudioSectionsInLevelSequence(w, h, sequence, []);
    if |groups| == 0 {
      return mm;
    }
    r := mm;
    var i := 0;
    while i < |groups|
      invariant 0 <= i <= |groups|
      invariant r == MergeGroups(w, mm, groups[..i], tolerance)
    {
      MergeGroupsSnoc(w, mm, groups, i, tolerance);
      var g := groups[i];
      var inner := FindOrAdd(r, g.sound).1;
      inner := CalculateTrimTimesInAllSections(w, inner, g.sections, tolerance);
      assert SetTimes(r, g.sound, inner) == MergeGroup(w, r, g, tolerance);
      r := SetTimes(r, g.sound, inner);
      i := i + 1;
    }
    assert groups[..i] == groups;
  }

  lemma MergeGroupsSnoc(w: World, mm: MultiMap, groups: SoundSections, i: nat, tolerance: Tolerance)
    requires i < |groups|
    ensures MergeGroups(w, mm, groups[..i + 1], tolerance) == MergeGroup(w, MergeGroups(w, mm, groups[..i], tolerance), groups[i], tolerance)
  {
    assert groups[..i + 1][..i] == groups[..i];
  }

  /** Merging keeps every sound already present, adds each group's sound,
      leaves the entries of the other sounds alone and keeps sounds
      distinct. */
  lemma {:induction false} MergeGroupsContents(w: World, mm: MultiMap, groups: SoundSections, tolerance: Tolerance)
    requires DistinctSounds(mm)
    ensures DistinctSounds(MergeGroups(w, mm, groups, tolerance))
    ensures |mm| <= |MergeGroups(w, mm, groups, tolerance)|
    ensures forall s :: HasSound(MergeGroups(w, mm, groups, tolerance), s) <==> HasSound(mm, s) || GroupOf(groups, s)
    ensures forall j :: 0 <= j < |mm| && !GroupOf(groups, mm[j].sound) ==> MergeGroups(w, mm, groups, tolerance)[j] == mm[j]
  {
    if |groups| > 0 {
      var init := groups[..|groups| - 1];
      var g := groups[|groups| - 1];
      MergeGroupsContents(w, mm, init, tolerance);
      var prev := MergeGroups(w, mm, init, tolerance);
      MergeGroupContents(w, prev, g, tolerance);
      GroupOfLast(groups);
      var r := MergeGroup(w, prev, g, tolerance);
      forall j | 0 <= j < |mm| && !GroupOf(groups, mm[j].sound)
        ensures r[j] == mm[j]
      {
        assert prev[j] == mm[j];
      }
    }
  }

  lemma MergeGroupContents(w: World, mm: MultiMap, g: Group, tolerance: Tolerance)
    requires DistinctSounds(mm)
    ensures var r := MergeGroup(w, mm, g, tolerance);
      && DistinctSounds(r)
      && |mm| <= |r|
      && (forall s :: HasSound(r, s) <==> HasSound(mm, s) || s == g.sound)
      && (forall j :: 0 <= j < |mm| && mm[j].sound != g.sound ==> r[j] == mm[j])
  {
    SetTimesSounds(mm, g.sound, CalcAllSpec(w, FindOrAdd(mm, g.sound).1, g.sections, tolerance));
  }

  /** Some window of the map lists the section. */
  predicate Lists(m: TrimTimesMap, x: SectionRef) {
    exists j :: 0 <= j < |m| && x in m[j].sections
  }

  /** The map of the sound lists the section. */
  predicate SoundLists(mm: MultiMap, s: SoundWave, x: SectionRef) {
    Lists(FindOrAdd(mm, s).1, x)
  }

  /** Every sound's map has distinct keys and valid windows only. */
  predicate MapsValid(mm: MultiMap, tolerance: Tolerance) {
    forall i :: 0 <= i < |mm| ==> DistinctKeys(mm[i].times, tolerance) && AllValid(mm[i].times)
  }

  /** Writing back a map with distinct, valid keys keeps every sound's map
      so. */
  lemma SetTimesMapsValid(mm: MultiMap, s: SoundWave, times: TrimTimesMap, tolerance: Tolerance)
    requires DistinctSounds(mm) && MapsValid(mm, tolerance)
    requires DistinctKeys(times, tolerance) && AllValid(times)
    ensures MapsValid(SetTimes(mm, s, times), tolerance)
  {
    var r := SetTimes(mm, s, times);
    SetTimesDistinct(mm, s, times);
    SetTimesSoundsAt(mm, s, times);
    SetTimesKeeps(mm, s, times);
    forall i | 0 <= i < |r|
      ensures DistinctKeys(r[i].times, tolerance) && AllValid(r[i].times)
    {
      if r[i].sound == s {
        assert i == IndexOfSound(r, s);
      } else {
        assert r[i] == mm[i];
      }
    }
  }

  /** The map FindOrAdd finds has distinct, valid keys. */
  lemma FoundValid(mm: MultiMap, s: SoundWave, tolerance: Tolerance)
    requires MapsValid(mm, tolerance)
    ensures DistinctKeys(FindOrAdd(mm, s).1, tolerance) && AllValid(FindOrAdd(mm, s).1)
  {
    if HasSound(mm, s) {
      assert FindOrAdd(mm, s).1 == mm[IndexOfSound(mm, s)].times;
    }
  }

  /** One group: every section of the group whose window is valid ends up in
      the map of the group's sound, and every section already listed under a
      sound stays listed there. */
  lemma MergeGroupCovers(w: World, mm: MultiMap, g: Group, tolerance: Tolerance)
    requires DistinctSounds(mm) && MapsValid(mm, tolerance)
    ensures MapsValid(MergeGroup(w, mm, g, tolerance), tolerance)
    ensures forall x :: x in g.sections && IsValid(CalculateTrimTimesInSection(w, x)) ==>
      SoundLists(MergeGroup(w, mm, g, tolerance), g.sound, x)
    ensures forall s, x :: SoundLists(mm, s, x) ==> SoundLists(MergeGroup(w, mm, g, tolerance), s, x)
  {
    var before := FindOrAdd(mm, g.sound).1;
    FoundValid(mm, g.sound, tolerance);
    var t := CalcAllSpec(w, before, g.sections, tolerance);
    CalcAllContents(w, before, g.sections, tolerance);
    SetTimesMapsValid(mm, g.sound, t, tolerance);
    var r := SetTimes(mm, g.sound, t);
    forall s
      ensures FindOrAdd(r, s).1 == if s == g.sound then t else FindOrAdd(mm, s).1
    {
      SetTimesLookup(mm, g.sound, t, s);
    }
  }

  /** Every section of the groups whose window is valid ends up in the map
      of its group's sound, and nothing listed before is lost. */
  lemma {:induction false} MergeGroupsCovers(w: World, mm: MultiMap, groups: SoundSections, tolerance: Tolerance)
    requires DistinctSounds(mm) && MapsValid(mm, tolerance)
    ensures MapsValid(MergeGroups(w, mm, groups, tolerance), tolerance)
    ensures forall k, x :: 0 <= k < |groups| && x in groups[k].sections && IsValid(CalculateTrimTimesInSection(w, x)) ==>
      SoundLists(MergeGroups(w, mm, groups, tolerance), groups[k].sound, x)
    ensures forall s, x :: SoundLists(mm, s, x) ==> SoundLists(MergeGroups(w, mm, groups, tolerance), s, x)
  {
    if |groups| > 0 {
      var init := groups[..|groups| - 1];
      var g := groups[|groups| - 1];
      MergeGroupsCovers(w, mm, init, tolerance);
      MergeGroupsContents(w, mm, init, tolerance);
      var prev := MergeGroups(w, mm, init, tolerance);
      MergeGroupCovers(w, prev, g, tolerance);
      forall k, x | 0 <= k < |groups| - 1 && x in groups[k].sections && IsValid(CalculateTrimTimesInSection(w, x))
        ensures SoundLists(prev, groups[k].sound, x)
      {
        assert groups[k] == init[k];
      }
    }
  }

  /** Every section on the audio tracks of the requested level sequence
      whose window is valid ends up in the map of the sound wave it plays. */
  lemma HandleRequestedCovers(w: World, h: Host, mm: MultiMap, sequence: Option<SequenceId>, tolerance: Tolerance)
    requires DistinctSounds(mm) && MapsValid(mm, tolerance)
    ensures MapsValid(HandleRequestedSpec(w, h, mm, sequence, tolerance), tolerance)
    ensures forall s, x :: SoundLists(mm, s, x) ==> SoundLists(HandleRequestedSpec(w, h, mm, sequence, tolerance), s, x)
    ensures sequence.Some? ==> forall x :: x in AudioSectionsOf(h.tracksOf(sequence.value)) && IsValid(CalculateTrimTimesInSection(w, x)) ==>
      SoundOf(w, x).Some? && SoundLists(HandleRequestedSpec(w, h, mm, sequence, tolerance), SoundOf(w, x).value, x)
  {
    if sequence.Some? {
      var secs := AudioSectionsOf(h.tracksOf(sequence.value));
      var groups := FindAudioSectionsSpec(w, h, sequence, []);
      GroupSpecContents(w, secs);
      var r := HandleRequestedSpec(w, h, mm, sequence, tolerance);
      if |groups| > 0 {
        MergeGroupsCovers(w, mm, groups, tolerance);
        forall x | x in secs && IsValid(CalculateTrimTimesInSection(w, x))
          ensures SoundOf(w, x).Some? && SoundLists(r, SoundOf(w, x).value, x)
        {
          assert Grouped(groups, x);
          var k :| 0 <= k < |groups| && x in groups[k].sections;
          assert SoundOf(w, x) == Some(groups[k].sound);
        }
      }
    }
  }

  /** Some group is for the sound. */
  predicate GroupOf(groups: SoundSections, s: SoundWave) {
    exists k :: 0 <= k < |groups| && groups[k].sound == s
  }

  lemma GroupOfLast(groups: SoundSections)
    requires |groups| > 0
    ensures forall s :: GroupOf(groups, s) <==>
      GroupOf(groups[..|groups| - 1], s) || groups[|groups| - 1].sound == s
  {
    var init := groups[..|groups| - 1];
    forall s | GroupOf(groups, s)
      ensures GroupOf(init, s) || groups[|groups| - 1].sound == s
    {
      var k :| 0 <= k < |groups| && groups[k].sound == s;
      if k < |init| {
        assert init[k] == groups[k];
      }
    }
  }

  /** The multimap is empty after the pass exactly when it was empty before
      and the level sequence is null or no section of its audio tracks plays
      a sound wave: FindOrAdd inserts a sound even when none of its windows
      is valid. */
  lemma HandleRequestedEmpty(w: World, h: Host, mm: MultiMap, sequence: Option<SequenceId>, tolerance: Tolerance)
    requires DistinctSounds(mm)
    ensures IsEmpty(HandleRequestedSpec(w, h, mm, sequence, tolerance)) <==>
      IsEmpty(mm) && (sequence.None? ||
        forall x :: x in AudioSectionsOf(h.tracksOf(sequence.value)) ==> SoundOf(w, x).None?)
  {
    if sequence.Some? {
      var secs := AudioSectionsOf(h.tracksOf(sequence.value));
      var groups := FindAudioSectionsSpec(w, h, sequence, []);
      GroupSpecContents(w, secs);
      if |groups| > 0 {
        MergeGroupsContents(w, mm, groups, tolerance);
        var r := MergeGroups(w, mm, groups, tolerance);
        assert GroupOf(groups, groups[0].sound);
        assert HasSound(r, groups[0].sound);
        assert groups[0].sections[0] in groups[0].sections;
        assert Grouped(groups, groups[0].sections[0]);
      } else {
        forall x | x in secs
          ensures SoundOf(w, x).None?
        {
          assert !Grouped(groups, x);
        }
      }
    }
  }

  // ---------------------------------------------------------------------------
  // HandleSoundsInOtherSequences

  /** The level sequence that owns a section, nullptr for none. */
  function OwnerOf(w: World, s: SectionRef): Option<SequenceId> {
    var sec := SectionAt(w, s);
    if sec.Some? then sec.value.owner else None
  }

  /** The windows the usages add: every usage that is a level sequence other
      than the original one contributes the sections of the sound in it. */
  function OtherUsagesSpec(w: World, h: Host, times: TrimTimesMap, sound: SoundWave, original: SequenceId,
                           usages: seq<Usage>, tolerance: Tolerance): TrimTimesMap
  {
    if |usages| == 0 then times
    else
      var prev := OtherUsagesSpec(w, h, times, sound, original, usages[..|usages| - 1], tolerance);
      var u := usages[|usages| - 1];
      if u.OtherUsage? || u.sequence == original then prev
      else UsageStep(w, h, prev, sound, u.sequence, tolerance)
  }

  /** One other level sequence: the sections of the sound in it, if any. */
  function UsageStep(w: World, h: Host, times: TrimTimesMap, sound: SoundWave, sequence: SequenceId, tolerance: Tolerance): TrimTimesMap {
    var groups := FindAudioSectionsSpec(w, h, Some(sequence), []);
    var i := IndexOfGroup(groups, sound);
    if i < |groups| then CalcAllSpec(w, times, groups[i].sections, tolerance) else times
  }

  lemma OtherUsagesSnoc(w: World, h: Host, times: TrimTimesMap, sound: SoundWave, original: SequenceId,
                        usages: seq<Usage>, k: nat, tolerance: Tolerance)
    requires k < |usages|
    ensures OtherUsagesSpec(w, h, times, sound, original, usages[..k + 1], tolerance) ==
      var prev := OtherUsagesSpec(w, h, times, sound, original, usages[..k], tolerance);
      var u := usages[k];
      if u.OtherUsage? || u.sequence == original then prev
      else UsageStep(w, h, prev, sound, u.sequence, tolerance)
  {
    assert usages[..k + 1][..k] == usages[..k];
  }

  /** One multimap entry: skipped when its first section has no level
      sequence. */
  function OtherSequencesEntry(w: World, h: Host, e: SoundEntry, tolerance: Tolerance): TrimTimesMap {
    var original := OwnerOf(w, FirstAudioSection(e.times));
    if original.None? then e.times
    else OtherUsagesSpec(w, h, e.times, e.sound, original.value, h.usagesOf(e.sound), tolerance)
  }

  /** What HandleSoundsInOtherSequences leaves: the same sound waves in the
      same order, each with its map extended. */
  function OtherSequencesSpec(w: World, h: Host, mm: MultiMap, tolerance: Tolerance): (r: MultiMap)
    ensures |r| == |mm|
    ensures forall i :: 0 <= i < |mm| ==> r[i].sound == mm[i].sound
  {
    seq(|mm|, i requires 0 <= i < |mm| => SoundEntry(mm[i].sound, OtherSequencesEntry(w, h, mm[i], tolerance)))
  }

  method HandleSoundsInOtherSequences(w: World, h: Host, mm: MultiMap, tolerance: Tolerance) returns (r: MultiMap)
    ensures r == OtherSequencesSpec(w, h, mm, tolerance)
  {
    r := mm;
    var i := 0;
    while i < |mm|
      invariant 0 <= i <= |mm|
      invariant |r| == |mm|
      invariant forall j :: 0 <= j < i ==> r[j] == SoundEntry(mm[j].sound, OtherSequencesEntry(w, h, mm[j], tolerance))
      invariant forall j :: i <= j < |mm| ==> r[j] == mm[j]
    {
      var e := mm[i];
      var first := GetFirstAudioSection(e.times);
      var original := OwnerOf(w, first);
      if original.Some? {
        var times := AddOtherUsages(w, h, e, original.value, tolerance);
        r := r[i := SoundEntry(e.sound, times)];
      }
      i := i + 1;
    }
    assert forall j :: 0 <= j < |mm| ==> r[j] == OtherSequencesSpec(w, h, mm, tolerance)[j];
  }

  /** The usages loop of one multimap entry. */
  method AddOtherUsages(w: World, h: Host, e: SoundEntry, original: SequenceId, tolerance: Tolerance)
    returns (times: TrimTimesMap)
    ensures times == OtherUsagesSpec(w, h, e.times, e.sound, original, h.usagesOf(e.sound), tolerance)
  {
    var usages := h.usagesOf(e.sound);
    times := e.times;
    var k := 0;
    while k < |usages|
      invariant 0 <= k <= |usages|
      invariant times == OtherUsagesSpec(w, h, e.times, e.sound, original, usages[..k], tolerance)
    {
      OtherUsagesSnoc(w, h, e.times, e.sound, original, usages, k, tolerance);
      var u := usages[k];
      if u.LevelSequenceUsage? && u.sequence != original {
        var groups := FindAudioSectionsInLevelSequence(w, h, Some(u.sequence), []);
        var g := IndexOfGroup(groups, e.sound);
        if g < |groups| {
          times := CalculateTrimTimesInAllSections(w, times, groups[g].sections, tolerance);
        }
      }
      k := k + 1;
    }
    assert usages[..k] == usages;
  }

  /** The pass only adds: each map keeps its invariant and every section it
      held. */
  lemma {:induction false} OtherUsagesKeeps(w: World, h: Host, times: TrimTimesMap, sound: SoundWave, original: SequenceId,
                                            usages: seq<Usage>, tolerance: Tolerance)
    requires DistinctKeys(times, tolerance) && AllValid(times)
    ensures var r := OtherUsagesSpec(w, h, times, sound, original, usages, tolerance);
      && DistinctKeys(r, tolerance) && AllValid(r) && |times| <= |r|
      && forall j, x :: 0 <= j < |times| && x in times[j].sections ==> x in r[j].sections
  {
    if |usages| > 0 {
      var init := usages[..|usages| - 1];
      OtherUsagesKeeps(w, h, times, sound, original, init, tolerance);
      var prev := OtherUsagesSpec(w, h, times, sound, original, init, tolerance);
      var u := usages[|usages| - 1];
      if u.LevelSequenceUsage? && u.sequence != original {
        var groups := FindAudioSectionsSpec(w, h, Some(u.sequence), []);
        var i := IndexOfGroup(groups, sound);
        if i < |groups| {
          CalcAllContents(w, prev, groups[i].sections, tolerance);
        }
      }
    }
  }

  /** One other level sequence: the map keeps its invariant and what it
      listed, and gains every section of the sound on the audio tracks of
      that level sequence whose window is valid. */
  lemma UsageStepCovers(w: World, h: Host, times: TrimTimesMap, sound: SoundWave, sequence: SequenceId, tolerance: Tolerance)
    requires DistinctKeys(times, tolerance) && AllValid(times)
    ensures DistinctKeys(UsageStep(w, h, times, sound, sequence, tolerance), tolerance)
    ensures AllValid(UsageStep(w, h, times, sound, sequence, tolerance))
    ensures forall x :: Lists(times, x) ==> Lists(UsageStep(w, h, times, sound, sequence, tolerance), x)
    ensures forall x :: (x in AudioSectionsOf(h.tracksOf(sequence)) && SoundOf(w, x) == Some(sound)
      && IsValid(CalculateTrimTimesInSection(w, x))) ==> Lists(UsageStep(w, h, times, sound, sequence, tolerance), x)
  {
    var secs := AudioSectionsOf(h.tracksOf(sequence));
    var groups := FindAudioSectionsSpec(w, h, Some(sequence), []);
    GroupSpecContents(w, secs);
    var i := IndexOfGroup(groups, sound);
    if i < |groups| {
      CalcAllContents(w, times, groups[i].sections, tolerance);
      var r := CalcAllSpec(w, times, groups[i].sections, tolerance);
      forall x | x in secs && SoundOf(w, x) == Some(sound) && IsValid(CalculateTrimTimesInSection(w, x))
        ensures Lists(r, x)
      {
        assert Grouped(groups, x);
        var k :| 0 <= k < |groups| && x in groups[k].sections;
        assert groups[k].sound == sound;
        assert i == k;
      }
    }
  }

  /** Every section of the sound on the audio tracks of a level sequence
      other than the original one, whose window is valid, ends up in the
      map, and every section listed before stays listed. */
  lemma {:induction false} OtherUsagesCovers(w: World, h: Host, times: TrimTimesMap, sound: SoundWave, original: SequenceId,
                                             usages: seq<Usage>, tolerance: Tolerance)
    requires DistinctKeys(times, tolerance) && AllValid(times)
    ensures forall x :: Lists(times, x) ==> Lists(OtherUsagesSpec(w, h, times, sound, original, usages, tolerance), x)
    ensures forall u, x :: (u in usages && u.LevelSequenceUsage? && u.sequence != original
      && x in AudioSectionsOf(h.tracksOf(u.sequence)) && SoundOf(w, x) == Some(sound)
      && IsValid(CalculateTrimTimesInSection(w, x))) ==>
      Lists(OtherUsagesSpec(w, h, times, sound, original, usages, tolerance), x)
  {
    if |usages| > 0 {
      var init := usages[..|usages| - 1];
      var u := usages[|usages| - 1];
      assert usages == init + [u];
      OtherUsagesCovers(w, h, times, sound, original, init, tolerance);
      OtherUsagesKeeps(w, h, times, sound, original, init, tolerance);
      var prev := OtherUsagesSpec(w, h, times, sound, original, init, tolerance);
      if u.LevelSequenceUsage? && u.sequence != original {
        UsageStepCovers(w, h, prev, sound, u.sequence, tolerance);
      }
    }
  }

  /** One multimap entry: its map keeps what it listed and gains every
      valid section of its sound in the level sequences it is used in
      besides the one owning its first section. */
  lemma OtherSequencesEntryCovers(w: World, h: Host, e: SoundEntry, tolerance: Tolerance)
    requires DistinctKeys(e.times, tolerance) && AllValid(e.times)
    ensures forall x :: Lists(e.times, x) ==> Lists(OtherSequencesEntry(w, h, e, tolerance), x)
    ensures OwnerOf(w, FirstAudioSection(e.times)).Some? ==>
      forall u, x :: (u in h.usagesOf(e.sound) && u.LevelSequenceUsage? && u.sequence != OwnerOf(w, FirstAudioSection(e.times)).value
        && x in AudioSectionsOf(h.tracksOf(u.sequence)) && SoundOf(w, x) == Some(e.sound)
        && IsValid(CalculateTrimTimesInSection(w, x))) ==>
        Lists(OtherSequencesEntry(w, h, e, tolerance), x)
  {
    var original := OwnerOf(w, FirstAudioSection(e.times));
    if original.Some? {
      OtherUsagesCovers(w, h, e.times, e.sound, original.value, h.usagesOf(e.sound), tolerance);
    }
  }

  /** The pass over the whole multimap, entry by entry. */
  lemma OtherSequencesCovers(w: World, h: Host, mm: MultiMap, tolerance: Tolerance)
    requires MapsValid(mm, tolerance)
    ensures forall i, x :: 0 <= i < |mm| && Lists(mm[i].times, x) ==> Lists(OtherSequencesSpec(w, h, mm, tolerance)[i].times, x)
    ensures forall i, u, x :: (0 <= i < |mm| && OwnerOf(w, FirstAudioSection(mm[i].times)).Some?
      && u in h.usagesOf(mm[i].sound) && u.LevelSequenceUsage? && u.sequence != OwnerOf(w, FirstAudioSection(mm[i].times)).value
      && x in AudioSectionsOf(h.tracksOf(u.sequence)) && SoundOf(w, x) == Some(mm[i].sound)
      && IsValid(CalculateTrimTimesInSection(w, x))) ==>
      Lists(OtherSequencesSpec(w, h, mm, tolerance)[i].times, x)
  {
    var r := OtherSequencesSpec(w, h, mm, tolerance);
    forall i | 0 <= i < |mm|
      ensures r[i].times == OtherSequencesEntry(w, h, mm[i], tolerance)
      ensures forall x :: Lists(mm[i].times, x) ==> Lists(r[i].times, x)
      ensures OwnerOf(w, FirstAudioSection(mm[i].times)).Some? ==>
        forall u, x :: (u in h.usagesOf(mm[i].sound) && u.LevelSequenceUsage? && u.sequence != OwnerOf(w, FirstAudioSection(mm[i].times)).value
          && x in AudioSectionsOf(h.tracksOf(u.sequence)) && SoundOf(w, x) == Some(mm[i].sound)
          && IsValid(CalculateTrimTimesInSection(w, x))) ==>
          Lists(r[i].times, x)
    {
      OtherSequencesEntryCovers(w, h, mm[i], tolerance);
    }
  }

  /** A sound that is used in no level sequence besides the original one
      keeps its map. */
  lemma {:induction false} OtherUsagesNone(w: World, h: Host, times: TrimTimesMap, sound: SoundWave, original: SequenceId,
                                           usages: seq<Usage>, tolerance: Tolerance)
    requires forall k :: 0 <= k < |usages| ==> usages[k].OtherUsage? || usages[k].sequence == original
    ensures OtherUsagesSpec(w, h, times, sound, original, usages, tolerance) == times
  {
    if |usages| > 0 {
      OtherUsagesNone(w, h, times, sound, original, usages[..|usages| - 1], tolerance);
    }
  }
}
