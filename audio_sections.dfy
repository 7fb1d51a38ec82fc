/** The utilities of the trimmer library that read audio sections: the usage
    window of one section, adding the windows of many sections to a
    trim-times map, and grouping the audio sections of a level sequence by
    sound wave. */
module AudioSections {
  import opened Wrappers
  import opened Engine
  import opened Arrays
  import opened TrimTimes
  import opened SectionsContainer
  import opened TrimMap

  /** CalculateTrimTimesInSection: Invalid for a null section, a section
      outside any level sequence or one without a sound wave; otherwise the
      window from the section's start offset into the sound to that offset
      plus the section's length. */
  function CalculateTrimTimesInSection(w: World, s: SectionRef): (r: TrimTimes)
    ensures var sec := SectionAt(w, s);
      IsValid(r) <==> (sec.Some? && sec.value.owner.Some? && sec.value.sound.Some?
        && sec.value.startOffsetMs >= 0 && sec.value.startOffsetMs + sec.value.lengthMs >= 0)
    ensures IsValid(r) ==> (UsageDurationMs(r) == SectionAt(w, s).value.lengthMs
      && r.startMs == SectionAt(w, s).value.startOffsetMs
      && r.sound == SectionAt(w, s).value.sound)
  {
    var sec := SectionAt(w, s);
    if sec.None? || sec.value.owner.None? then Invalid
    else if sec.value.sound.None? then Invalid
    else TrimTimes(sec.value.startOffsetMs, sec.value.startOffsetMs + sec.value.lengthMs, sec.value.sound)
  }

  /** The map CalculateTrimTimesInAllSections leaves after the first
      sections: each non-null section with a valid window is added. */
  function CalcAllSpec(w: World, m: TrimTimesMap, secs: Sections, tolerance: Tolerance): TrimTimesMap {
    if |secs| == 0 then m
    else
      var prev := CalcAllSpec(w, m, secs[..|secs| - 1], tolerance);
      var s := secs[|secs| - 1];
      if s.None? then prev
      else
        var window := CalculateTrimTimesInSection(w, s);
        if IsValid(window) then AddSpec(prev, window, s, tolerance).0 else prev
  }

  /** CalculateTrimTimesInAllSections. */
  method CalculateTrimTimesInAllSections(w: World, m: TrimTimesMap, secs: Sections, tolerance: Tolerance)
    returns (r: TrimTimesMap)
    ensures r == CalcAllSpec(w, m, secs, tolerance)
  {
    r := m;
    var i := 0;
    while i < |secs|
      invariant 0 <= i <= |secs|
      invariant r == CalcAllSpec(w, m, secs[..i], tolerance)
    {
      assert secs[..i + 1][..i] == secs[..i];
      var s := secs[i];
      if s.Some? {
        var window := CalculateTrimTimesInSection(w, s);
        if IsValid(window) {
          var ok;
          r, ok := TrimMap.Add(r, window, s, tolerance);
        }
      }
      i := i + 1;
    }
    assert secs[..i] == secs;
  }

  /** Add never drops a section nor an entry. */
  lemma AddKeepsSections(m: TrimTimesMap, w: TrimTimes, s: SectionRef, tolerance: Tolerance)
    ensures var r := AddSpec(m, w, s, tolerance).0;
      |m| <= |r| && forall j, x :: 0 <= j < |m| && x in m[j].sections ==> x in r[j].sections
  {
  }

  /** The map keeps its invariant, keeps every section it held, and ends up
      holding every section whose window is valid. */
  lemma {:induction false} CalcAllContents(w: World, m: TrimTimesMap, secs: Sections, tolerance: Tolerance)
    requires DistinctKeys(m, tolerance) && AllValid(m)
    ensures var r := CalcAllSpec(w, m, secs, tolerance);
      && DistinctKeys(r, tolerance) && AllValid(r)
      && |m| <= |r|
      && (forall j, x :: 0 <= j < |m| && x in m[j].sections ==> x in r[j].sections)
      && (forall s :: s in secs && IsValid(CalculateTrimTimesInSection(w, s)) ==>
            exists j :: 0 <= j < |r| && s in r[j].sections)
  {
    if |secs| > 0 {
      var init := secs[..|secs| - 1];
      var s := secs[|secs| - 1];
      CalcAllContents(w, m, init, tolerance);
      var prev := CalcAllSpec(w, m, init, tolerance);
      var r := CalcAllSpec(w, m, secs, tolerance);
      assert secs == init + [s];
      if s.Some? && IsValid(CalculateTrimTimesInSection(w, s)) {
        var window := CalculateTrimTimesInSection(w, s);
        AddKeepsInvariant(prev, window, s, tolerance);
        AddKeepsSections(prev, window, s, tolerance);
        AddStoresSection(prev, window, s, tolerance);
        forall x | x in secs && IsValid(CalculateTrimTimesInSection(w, x))
          ensures exists j :: 0 <= j < |r| && x in r[j].sections
        {
          if x != s {
            assert x in init;
            var j :| 0 <= j < |prev| && x in prev[j].sections;
            assert x in r[j].sections;
          } else {
            var j := IndexOfKey(r, window, tolerance);
            assert x in r[j].sections;
          }
        }
      } else {
        forall x | x in secs && IsValid(CalculateTrimTimesInSection(w, x))
          ensures exists j :: 0 <= j < |r| && x in r[j].sections
        {
          if x != s {
            assert x in init;
          }
        }
      }
    }
  }

  // ---------------------------------------------------------------------------
  // FindAudioSectionsInLevelSequence

  /** One entry of the TMap from sound wave to sections container. */
  datatype Group = Group(sound: SoundWave, sections: Sections)

  type SoundSections = seq<Group>

  predicate DistinctGroups(g: SoundSections) {
    forall i, j :: 0 <= i < j < |g| ==> g[i].sound != g[j].sound
  }

  /** The sections of the audio tracks, track by track; other tracks are
      skipped. */
  function AudioSectionsOf(tracks: seq<Track>): Sections {
    if |tracks| == 0 then []
    else
      var last := tracks[|tracks| - 1];
      AudioSectionsOf(tracks[..|tracks| - 1]) + (if last.AudioTrack? then last.sections else [])
  }

  /** The sound wave a section plays, if it is an audio section with one. */
  function SoundOf(w: World, s: SectionRef): Option<SoundWave> {
    var sec := SectionAt(w, s);
    if sec.Some? then sec.value.sound else None
  }

  /** Where TMap lookup finds the sound, or |g| when it is absent. */
  function IndexOfGroup(g: SoundSections, sound: SoundWave): (i: nat)
    ensures i <= |g|
    ensures i < |g| ==> g[i].sound == sound
    ensures forall j :: 0 <= j < i ==> g[j].sound != sound
  {
    if |g| == 0 then 0
    else if g[0].sound == sound then 0
    else 1 + IndexOfGroup(g[1..], sound)
  }

  /** OutMap.FindOrAdd(SoundWave).Add(AudioSection). */
  function AddToGroup(g: SoundSections, sound: SoundWave, s: SectionRef): SoundSections {
    var i := IndexOfGroup(g, sound);
    if i < |g| then g[i := Group(sound, SectionsContainer.Add(g[i].sections, s).1)]
    else g + [Group(sound, SectionsContainer.Add([], s).1)]
  }

  /** The groups after the first sections of the walk. */
  function GroupSpec(w: World, secs: Sections): SoundSections {
    if |secs| == 0 then []
    else
      var prev := GroupSpec(w, secs[..|secs| - 1]);
      var s := secs[|secs| - 1];
      var sound := SoundOf(w, s);
      if sound.Some? then AddToGroup(prev, sound.value, s) else prev
  }

  /** A group lists sections that play its sound, each once. */
  predicate GroupsFaithful(w: World, g: SoundSections) {
    forall i :: 0 <= i < |g| ==>
      |g[i].sections| > 0 && NoDup(g[i].sections)
      && forall x :: x in g[i].sections ==> SoundOf(w, x) == Some(g[i].sound)
  }

  /** Some group lists the section. */
  predicate Grouped(g: SoundSections, x: SectionRef) {
    exists i :: 0 <= i < |g| && x in g[i].sections
  }

  /** Adding keeps one group per sound wave. */
  lemma AddToGroupDistinct(g: SoundSections, sound: SoundWave, s: SectionRef)
    requires DistinctGroups(g)
    ensures DistinctGroups(AddToGroup(g, sound, s))
  {
    var i := IndexOfGroup(g, sound);
    if i < |g| {
      var r := g[i := Group(sound, SectionsContainer.Add(g[i].sections, s).1)];
      assert forall k :: 0 <= k < |g| ==> r[k].sound == g[k].sound;
    } else {
      var r := g + [Group(sound, SectionsContainer.Add([], s).1)];
      assert forall k :: 0 <= k < |g| ==> r[k] == g[k];
    }
  }

  /** Adding a section under its own sound keeps every group faithful. */
  lemma AddToGroupFaithful(w: World, g: SoundSections, sound: SoundWave, s: SectionRef)
    requires GroupsFaithful(w, g) && SoundOf(w, s) == Some(sound)
    ensures GroupsFaithful(w, AddToGroup(g, sound, s))
  {
    var r := AddToGroup(g, sound, s);
    var i := IndexOfGroup(g, sound);
    forall k | 0 <= k < |r|
      ensures |r[k].sections| > 0 && NoDup(r[k].sections)
      ensures forall x :: x in r[k].sections ==> SoundOf(w, x) == Some(r[k].sound)
    {
      if k != i {
        assert r[k] == g[k];
      }
    }
  }

  /** Adding lists the new section and keeps every section listed before. */
  lemma AddToGroupGrouped(g: SoundSections, sound: SoundWave, s: SectionRef)
    ensures forall x :: Grouped(AddToGroup(g, sound, s), x) <==> Grouped(g, x) || x == s
  {
    var r := AddToGroup(g, sound, s);
    var i := IndexOfGroup(g, sound);
    forall x
      ensures Grouped(r, x) <==> Grouped(g, x) || x == s
    {
      if Grouped(g, x) {
        var k :| 0 <= k < |g| && x in g[k].sections;
        assert x in r[k].sections;
      }
      if x == s {
        assert x in r[i].sections;
      }
      if Grouped(r, x) {
        var k :| 0 <= k < |r| && x in r[k].sections;
        if k != i {
          assert r[k] == g[k];
        }
      }
    }
  }

  lemma AddToGroupContents(w: World, g: SoundSections, sound: SoundWave, s: SectionRef)
    requires DistinctGroups(g) && GroupsFaithful(w, g) && SoundOf(w, s) == Some(sound)
    ensures DistinctGroups(AddToGroup(g, sound, s)) && GroupsFaithful(w, AddToGroup(g, sound, s))
    ensures forall x :: Grouped(AddToGroup(g, sound, s), x) <==> Grouped(g, x) || x == s
  {
    AddToGroupDistinct(g, sound, s);
    AddToGroupFaithful(w, g, sound, s);
    AddToGroupGrouped(g, sound, s);
  }

  /** The groups have distinct sound waves, list each section once under its
      own sound, and list a section of the walk exactly when it plays a
      sound wave. */
  lemma {:induction false} GroupSpecContents(w: World, secs: Sections)
    ensures DistinctGroups(GroupSpec(w, secs)) && GroupsFaithful(w, GroupSpec(w, secs))
    ensures forall x :: Grouped(GroupSpec(w, secs), x) <==> x in secs && SoundOf(w, x).Some?
  {
    if |secs| > 0 {
      var init := secs[..|secs| - 1];
      var s := secs[|secs| - 1];
      GroupSpecContents(w, init);
      assert secs == init + [s];
      var sound := SoundOf(w, s);
      if sound.Some? {
        AddToGroupContents(w, GroupSpec(w, init), sound.value, s);
      }
    }
  }

  /** One more section of a track in the walk. */
  lemma GroupSpecStep(w: World, walked: Sections, secs: Sections, j: nat)
    requires j < |secs|
    ensures GroupSpec(w, walked + secs[..j + 1]) ==
      var prev := GroupSpec(w, walked + secs[..j]);
      if SoundOf(w, secs[j]).Some? then AddToGroup(prev, SoundOf(w, secs[j]).value, secs[j]) else prev
  {
    var all := walked + secs[..j + 1];
    assert all[..|all| - 1] == walked + secs[..j];
    assert all[|all| - 1] == secs[j];
  }

  /** FindAudioSectionsInLevelSequence: a null level sequence leaves the
      caller's map untouched; otherwise the map is emptied and every section
      on an audio track that plays a sound wave is added under that sound
      wave. */
  function FindAudioSectionsSpec(w: World, h: Host, sequence: Option<SequenceId>, previous: SoundSections): SoundSections {
    if sequence.None? then previous else GroupSpec(w, AudioSectionsOf(h.tracksOf(sequence.value)))
  }

  method FindAudioSectionsInLevelSequence(w: World, h: Host, sequence: Option<SequenceId>, previous: SoundSections)
    returns (r: SoundSections)
    ensures r == FindAudioSectionsSpec(w, h, sequence, previous)
  {
    if sequence.None? {
      return previous;
    }
    r := previous;
    if |r| != 0 {
      r := [];
    }
    var tracks := h.tracksOf(sequence.value);
    var t := 0;
    while t < |tracks|
      invariant 0 <= t <= |tracks|
      invariant r == GroupSpec(w, AudioSectionsOf(tracks[..t]))
    {
      assert tracks[..t + 1][..t] == tracks[..t];
      var track := tracks[t];
      var walked := AudioSectionsOf(tracks[..t]);
      if track.AudioTrack? {
        var secs := track.sections;
        var j := 0;
        assert walked + secs[..j] == walked;
        while j < |secs|
          invariant 0 <= j <= |secs|
          invariant r == GroupSpec(w, walked + secs[..j])
        {
          GroupSpecStep(w, walked, secs, j);
          var s := secs[j];
          var sound := SoundOf(w, s);
          if sound.Some? {
            r := AddToGroup(r, sound.value, s);
          }
          j := j + 1;
        }
        assert secs[..j] == secs;
        assert AudioSectionsOf(tracks[..t + 1]) == walked + secs;
      } else {
        assert AudioSectionsOf(tracks[..t + 1]) == walked + [];
        assert walked + [] == walked;
      }
      t := t + 1;
    }
    assert tracks[..t] == tracks;
  }
}
