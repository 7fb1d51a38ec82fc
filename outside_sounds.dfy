/** HandlePolicySoundsOutsideSequences: sound waves that something other
    than a level sequence also uses (a level, a blueprint) are either
    dropped or replaced by a duplicate, so that trimming cannot break those
    other usages. */
module OutsideSounds {
  import opened Wrappers
  import opened Engine
  import opened TrimTimes
  import opened SectionsContainer
  import opened TrimMap
  import opened TrimTimesMultiMap
  import opened DuplicateSound
  import opened PolicyTypes

  /** Some usage of the sound wave is not a level sequence. */
  predicate HasExternalUsage(h: Host, s: SoundWave) {
    exists k :: 0 <= k < |h.usagesOf(s)| && h.usagesOf(s)[k].OtherUsage?
  }

  /** The sound waves the first loop flags, in multimap order. */
  function FlaggedSpec(mm: MultiMap, h: Host): seq<SoundWave> {
    if |mm| == 0 then []
    else
      var prev := FlaggedSpec(mm[..|mm| - 1], h);
      var s := mm[|mm| - 1].sound;
      if HasExternalUsage(h, s) then prev + [s] else prev
  }

  /** A sound wave is flagged exactly when the multimap holds it and one of
      its usages is not a level sequence. */
  lemma {:induction false} FlaggedContents(mm: MultiMap, h: Host)
    ensures forall s :: s in FlaggedSpec(mm, h) <==> HasSound(mm, s) && HasExternalUsage(h, s)
  {
    if |mm| > 0 {
      var init := mm[..|mm| - 1];
      FlaggedContents(init, h);
      forall s
        ensures s in FlaggedSpec(mm, h) <==> HasSound(mm, s) && HasExternalUsage(h, s)
      {
        if HasSound(mm, s) && s != mm[|mm| - 1].sound {
          var j :| 0 <= j < |mm| && mm[j].sound == s;
          assert init[j] == mm[j];
        }
        if HasSound(init, s) {
          var j :| 0 <= j < |init| && init[j].sound == s;
          assert mm[j] == init[j];
        }
      }
    }
  }

  /** The keys of a window map all carry the same sound. */
  predicate SameKeySound(m: TrimTimesMap) {
    |m| == 0 || KeysOfSound(m, m[0].key.sound)
  }

  /** One entry under SkipAndDuplicate: a flagged entry gets a fresh
      duplicate as its sound wave, and its keys and sections get it too
      (DuplicateFlaggedRecords states the effect on the sections). */
  function DuplicateEntry(w: World, e: SoundEntry, flagged: seq<SoundWave>): (SoundEntry, World) {
    if e.sound !in flagged then (e, w)
    else
      var made := DuplicateSoundWave(w, e.sound, 1);
      var d := made.0.value;
      (SoundEntry(d, WithSound(e.times, Some(d))), SetSoundSpec(made.1, AllSections(e.times), Some(d)))
  }

  function DuplicateFlaggedSpec(mm: MultiMap, w: World, flagged: seq<SoundWave>): (MultiMap, World) {
    if |mm| == 0 then ([], w)
    else
      var prev := DuplicateFlaggedSpec(mm[..|mm| - 1], w, flagged);
      var step := DuplicateEntry(prev.1, mm[|mm| - 1], flagged);
      (prev.0 + [step.0], step.1)
  }

  /** A flagged entry gets the next fresh sound wave, named after the
      original, with the same content, and its keys carry it. */
  lemma DuplicateEntryContents(w: World, e: SoundEntry, flagged: seq<SoundWave>)
    ensures var r := DuplicateEntry(w, e, flagged);
      && (e.sound !in flagged ==> r == (e, w))
      && (e.sound in flagged ==> r.0 == Renamed(e, w.nextSoundId) && r.1.nextSoundId == w.nextSoundId + 1)
  {
  }

  /** What HandlePolicySoundsOutsideSequences leaves. */
  function OutsidePolicySpec(mm: MultiMap, w: World, h: Host, policy: OutsidePolicy): (MultiMap, World) {
    var flagged := FlaggedSpec(mm, h);
    if |flagged| == 0 then (mm, w)
    else match policy
      case SkipAll => (RemoveAllSpec(mm, flagged), w)
      case SkipAndDuplicate => DuplicateFlaggedSpec(mm, w, flagged)
  }

  /** ContainsByPredicate over the usages: one of them is not a level
      sequence. */
  method HasExternalUsages(h: Host, s: SoundWave) returns (external: bool)
    ensures external == HasExternalUsage(h, s)
  {
    var usages := h.usagesOf(s);
    external := false;
    var k := 0;
    while k < |usages| && !external
      invariant 0 <= k <= |usages|
      invariant external <==> exists j :: 0 <= j < k && usages[j].OtherUsage?
    {
      external := usages[k].OtherUsage?;
      k := k + 1;
    }
  }

  method HandlePolicySoundsOutsideSequences(mm: MultiMap, w: World, h: Host, policy: OutsidePolicy)
    returns (r: MultiMap, w': World)
    ensures (r, w') == OutsidePolicySpec(mm, w, h, policy)
  {
    var flagged := FlagSoundsOutsideSequences(mm, h);
    if |flagged| == 0 {
      return mm, w;
    }
    match policy
    case SkipAll =>
      r := Remove(mm, flagged);
      w' := w;
    case SkipAndDuplicate =>
      r, w' := DuplicateFlagged(mm, w, flagged);
  }

  /** The first loop: the sound waves with a usage outside level sequences. */
  method FlagSoundsOutsideSequences(mm: MultiMap, h: Host) returns (flagged: seq<SoundWave>)
    ensures flagged == FlaggedSpec(mm, h)
  {
    flagged := [];
    var i := 0;
    while i < |mm|
      invariant 0 <= i <= |mm|
      invariant flagged == FlaggedSpec(mm[..i], h)
    {
      FlaggedSnoc(mm, i, h);
      var external := HasExternalUsages(h, mm[i].sound);
      if external {
        flagged := flagged + [mm[i].sound];
      }
      i := i + 1;
    }
    assert mm[..i] == mm;
  }

  /** The SkipAndDuplicate loop: every flagged entry moves to a duplicate. */
  method DuplicateFlagged(mm: MultiMap, w: World, flagged: seq<SoundWave>) returns (r: MultiMap, w': World)
    ensures (r, w') == DuplicateFlaggedSpec(mm, w, flagged)
  {
    r, w' := [], w;
    var j := 0;
    while j < |mm|
      invariant 0 <= j <= |mm|
      invariant (r, w') == DuplicateFlaggedSpec(mm[..j], w, flagged)
    {
      DuplicateFlaggedSnoc(mm, j, w, flagged);
      var e := mm[j];
      if e.sound in flagged {
        var made := DuplicateSoundWave(w', e.sound, 1);
        var d := made.0.value;
        var times;
        w', times := TrimMap.SetSound(made.1, e.times, Some(d));
        e := SoundEntry(d, times);
      }
      r := r + [e];
      j := j + 1;
    }
    assert mm[..j] == mm;
  }

  lemma FlaggedSnoc(mm: MultiMap, i: nat, h: Host)
    requires i < |mm|
    ensures FlaggedSpec(mm[..i + 1], h) ==
      var prev := FlaggedSpec(mm[..i], h);
      if HasExternalUsage(h, mm[i].sound) then prev + [mm[i].sound] else prev
  {
    assert mm[..i + 1][..i] == mm[..i];
  }

  lemma DuplicateFlaggedSnoc(mm: MultiMap, j: nat, w: World, flagged: seq<SoundWave>)
    requires j < |mm|
    ensures DuplicateFlaggedSpec(mm[..j + 1], w, flagged) ==
      var prev := DuplicateFlaggedSpec(mm[..j], w, flagged);
      var step := DuplicateEntry(prev.1, mm[j], flagged);
      (prev.0 + [step.0], step.1)
  {
    assert mm[..j + 1][..j] == mm[..j];
  }

  /** SkipAndDuplicate keeps the number of entries and their order; an
      entry that is not flagged is unchanged; a flagged one now holds a fresh
      duplicate, with the generated name and the same content, and its keys
      play the duplicate. */
  lemma DuplicateFlaggedContents(mm: MultiMap, w: World, flagged: seq<SoundWave>)
    ensures |DuplicateFlaggedSpec(mm, w, flagged).0| == |mm|
    ensures w.nextSoundId <= DuplicateFlaggedSpec(mm, w, flagged).1.nextSoundId
    ensures forall i :: 0 <= i < |mm| && mm[i].sound !in flagged ==> DuplicateFlaggedSpec(mm, w, flagged).0[i] == mm[i]
    ensures forall i :: 0 <= i < |mm| && mm[i].sound in flagged ==>
      var r := DuplicateFlaggedSpec(mm, w, flagged);
      w.nextSoundId <= r.0[i].sound.id < r.1.nextSoundId && r.0[i] == Renamed(mm[i], r.0[i].sound.id)
  {
    DuplicateFlaggedShape(mm, w, flagged);
    forall i | 0 <= i < |mm|
      ensures mm[i].sound !in flagged ==> DuplicateFlaggedSpec(mm, w, flagged).0[i] == mm[i]
      ensures mm[i].sound in flagged ==>
        var r := DuplicateFlaggedSpec(mm, w, flagged);
        w.nextSoundId <= r.0[i].sound.id < r.1.nextSoundId && r.0[i] == Renamed(mm[i], r.0[i].sound.id)
    {
      if mm[i].sound in flagged {
        DuplicateFlaggedRenames(mm, w, flagged, i);
      } else {
        DuplicateFlaggedKeeps(mm, w, flagged, i);
      }
    }
  }

  /** SkipAndDuplicate keeps the number of entries and never lowers the
      next sound wave id. */
  lemma {:induction false} DuplicateFlaggedShape(mm: MultiMap, w: World, flagged: seq<SoundWave>)
    ensures |DuplicateFlaggedSpec(mm, w, flagged).0| == |mm|
    ensures w.nextSoundId <= DuplicateFlaggedSpec(mm, w, flagged).1.nextSoundId
  {
    if |mm| > 0 {
      var init := mm[..|mm| - 1];
      DuplicateFlaggedShape(init, w, flagged);
      DuplicateEntryContents(DuplicateFlaggedSpec(init, w, flagged).1, mm[|mm| - 1], flagged);
    }
  }

  /** The entries after SkipAndDuplicate, in terms of those before the
      last one. */
  lemma DuplicateFlaggedLast(mm: MultiMap, w: World, flagged: seq<SoundWave>)
    requires |mm| > 0
    ensures var prev := DuplicateFlaggedSpec(mm[..|mm| - 1], w, flagged);
      var r := DuplicateFlaggedSpec(mm, w, flagged);
      && |r.0| == |prev.0| + 1 && r.0[..|prev.0|] == prev.0
      && r.0[|prev.0|] == DuplicateEntry(prev.1, mm[|mm| - 1], flagged).0
      && r.1 == DuplicateEntry(prev.1, mm[|mm| - 1], flagged).1
  {
  }

  /** An entry that is not flagged is left as it was. */
  lemma DuplicateFlaggedKeeps(mm: MultiMap, w: World, flagged: seq<SoundWave>, i: nat)
    requires i < |mm| && mm[i].sound !in flagged
    ensures |DuplicateFlaggedSpec(mm, w, flagged).0| == |mm|
    ensures DuplicateFlaggedSpec(mm, w, flagged).0[i] == mm[i]
  {
    DuplicateFlaggedEntry(mm, w, flagged, i);
    DuplicateEntryContents(DuplicateFlaggedSpec(mm[..i], w, flagged).1, mm[i], flagged);
  }

  /** Entry i after SkipAndDuplicate is the step for entry i taken in the
      world left by the entries before it. */
  lemma {:induction false} DuplicateFlaggedEntry(mm: MultiMap, w: World, flagged: seq<SoundWave>, i: nat)
    requires i < |mm|
    ensures |DuplicateFlaggedSpec(mm, w, flagged).0| == |mm|
    ensures DuplicateFlaggedSpec(mm, w, flagged).0[i] == DuplicateEntry(DuplicateFlaggedSpec(mm[..i], w, flagged).1, mm[i], flagged).0
  {
    var init := mm[..|mm| - 1];
    DuplicateFlaggedShape(mm, w, flagged);
    DuplicateFlaggedShape(init, w, flagged);
    DuplicateFlaggedLast(mm, w, flagged);
    if i < |init| {
      DuplicateFlaggedEntry(init, w, flagged, i);
      assert init[..i] == mm[..i];
      assert DuplicateFlaggedSpec(mm, w, flagged).0[i] == DuplicateFlaggedSpec(init, w, flagged).0[i];
      assert mm[i] == init[i];
    }
  }

  /** The next sound wave id only grows along the entries. */
  lemma {:induction false} DuplicateFlaggedNextGrows(mm: MultiMap, w: World, flagged: seq<SoundWave>, n: nat)
    requires n <= |mm|
    ensures DuplicateFlaggedSpec(mm[..n], w, flagged).1.nextSoundId <= DuplicateFlaggedSpec(mm, w, flagged).1.nextSoundId
    decreases |mm| - n
  {
    if n < |mm| {
      DuplicateFlaggedNextGrows(mm, w, flagged, n + 1);
      var p := mm[..n + 1];
      assert p[..|p| - 1] == mm[..n];
      DuplicateEntryContents(DuplicateFlaggedSpec(mm[..n], w, flagged).1, mm[n], flagged);
    } else {
      assert mm[..n] == mm;
    }
  }

  /** A flagged entry is the renamed entry of a duplicate made during the
      pass. */
  lemma DuplicateFlaggedRenames(mm: MultiMap, w: World, flagged: seq<SoundWave>, i: nat)
    requires i < |mm| && mm[i].sound in flagged
    ensures |DuplicateFlaggedSpec(mm, w, flagged).0| == |mm|
    ensures w.nextSoundId <= DuplicateFlaggedSpec(mm, w, flagged).0[i].sound.id < DuplicateFlaggedSpec(mm, w, flagged).1.nextSoundId
    ensures DuplicateFlaggedSpec(mm, w, flagged).0[i] == Renamed(mm[i], DuplicateFlaggedSpec(mm, w, flagged).0[i].sound.id)
  {
    var before := DuplicateFlaggedSpec(mm[..i], w, flagged).1;
    DuplicateFlaggedEntry(mm, w, flagged, i);
    DuplicateFlaggedShape(mm[..i], w, flagged);
    DuplicateEntryContents(before, mm[i], flagged);
    DuplicateFlaggedNextGrows(mm, w, flagged, i + 1);
    var p := mm[..i + 1];
    assert p[..|p| - 1] == mm[..i] && p[|p| - 1] == mm[i];
  }

  /** The entry of a duplicate made for `e` under a given id. */
  function Renamed(e: SoundEntry, id: nat): SoundEntry {
    var d := SoundWave(id, DuplicateName(e.sound.name, 1), e.sound.durationMs);
    SoundEntry(d, WithSound(e.times, Some(d)))
  }

  /** The duplicates are all different from each other and from the sound
      waves already in the multimap. */
  lemma {:induction false} DuplicateFlaggedDistinct(mm: MultiMap, w: World, flagged: seq<SoundWave>)
    requires DistinctSounds(mm) && IdsBelow(mm, w.nextSoundId)
    ensures DistinctSounds(DuplicateFlaggedSpec(mm, w, flagged).0)
    ensures IdsBelow(DuplicateFlaggedSpec(mm, w, flagged).0, DuplicateFlaggedSpec(mm, w, flagged).1.nextSoundId)
  {
    if |mm| > 0 {
      var init := mm[..|mm| - 1];
      var last := mm[|mm| - 1];
      DuplicateFlaggedDistinct(init, w, flagged);
      DuplicateFlaggedContents(init, w, flagged);
      var prev := DuplicateFlaggedSpec(init, w, flagged);
      DuplicateEntryContents(prev.1, last, flagged);
      var r := DuplicateFlaggedSpec(mm, w, flagged);
      assert r.0 == prev.0 + [DuplicateEntry(prev.1, last, flagged).0];
      if last.sound !in flagged {
        forall i | 0 <= i < |prev.0|
          ensures prev.0[i].sound != last.sound
        {
          assert mm[i] == init[i];
        }
      }
    }
  }

  /** SkipAndDuplicate keeps the multimap well formed when each flagged
      map's keys share one sound. */
  lemma DuplicateFlaggedWellFormed(mm: MultiMap, w: World, flagged: seq<SoundWave>, tolerance: Tolerance)
    requires WellFormed(mm, w, tolerance)
    requires forall i :: 0 <= i < |mm| && mm[i].sound in flagged ==> SameKeySound(mm[i].times)
    ensures var r := DuplicateFlaggedSpec(mm, w, flagged);
      WellFormed(r.0, r.1, tolerance)
  {
    var r := DuplicateFlaggedSpec(mm, w, flagged);
    DuplicateFlaggedContents(mm, w, flagged);
    DuplicateFlaggedDistinct(mm, w, flagged);
    forall i | 0 <= i < |mm|
      ensures DistinctKeys(r.0[i].times, tolerance)
    {
      if mm[i].sound in flagged && |mm[i].times| > 0 {
        WithSoundKeepsDistinct(mm[i].times, mm[i].times[0].key.sound, Some(r.0[i].sound), tolerance);
      }
    }
  }

  /** Entry i is flagged and lists the section. */
  predicate ListsFlagged(mm: MultiMap, flagged: seq<SoundWave>, i: int, id: SectionId)
    requires 0 <= i < |mm|
  {
    mm[i].sound in flagged && Some(id) in AllSections(mm[i].times)
  }

  /** The last flagged entry that lists the section, or -1 for none: its
      duplicate is the sound the section plays after SkipAndDuplicate. */
  function LastFlaggedOwner(mm: MultiMap, flagged: seq<SoundWave>, id: SectionId): (r: int)
    ensures -1 <= r < |mm|
    ensures r >= 0 ==> ListsFlagged(mm, flagged, r, id)
    ensures forall j :: r < j < |mm| ==> !ListsFlagged(mm, flagged, j, id)
  {
    if |mm| == 0 then -1
    else if ListsFlagged(mm, flagged, |mm| - 1, id) then |mm| - 1
    else
      var r := LastFlaggedOwner(mm[..|mm| - 1], flagged, id);
      assert forall j :: 0 <= j < |mm| - 1 ==> (ListsFlagged(mm, flagged, j, id) <==> ListsFlagged(mm[..|mm| - 1], flagged, j, id));
      r
  }

  /** The section records SkipAndDuplicate leaves: a section that some
      flagged entry lists plays the duplicate of the last such entry, with
      the rest of its record unchanged; every other section keeps its
      record. */
  lemma {:induction false} DuplicateFlaggedRecords(mm: MultiMap, w: World, flagged: seq<SoundWave>, id: SectionId)
    requires id in w.sections
    ensures |DuplicateFlaggedSpec(mm, w, flagged).0| == |mm|
    ensures DuplicateFlaggedSpec(mm, w, flagged).1.sections.Keys == w.sections.Keys
    ensures DuplicateFlaggedSpec(mm, w, flagged).1.sections[id] ==
      if LastFlaggedOwner(mm, flagged, id) < 0 then w.sections[id]
      else w.sections[id].(sound := Some(DuplicateFlaggedSpec(mm, w, flagged).0[LastFlaggedOwner(mm, flagged, id)].sound))
  {
    DuplicateFlaggedShape(mm, w, flagged);
    if |mm| > 0 {
      var init := mm[..|mm| - 1];
      var e := mm[|mm| - 1];
      DuplicateFlaggedRecords(init, w, flagged, id);
      DuplicateFlaggedShape(init, w, flagged);
      DuplicateFlaggedLast(mm, w, flagged);
      var prev := DuplicateFlaggedSpec(init, w, flagged);
      var r := DuplicateFlaggedSpec(mm, w, flagged);
      if !ListsFlagged(mm, flagged, |mm| - 1, id) {
        assert LastFlaggedOwner(mm, flagged, id) == LastFlaggedOwner(init, flagged, id);
        var k := LastFlaggedOwner(init, flagged, id);
        if k >= 0 {
          assert r.0[k] == prev.0[k];
        }
      }
    }
  }

  /** SkipAll removes exactly the sound waves some non-sequence asset uses
      and does not touch the world; SkipAndDuplicate keeps every entry in
      place, replacing exactly the flagged ones. */
  lemma OutsidePolicyContents(mm: MultiMap, w: World, h: Host, policy: OutsidePolicy)
    ensures var r := OutsidePolicySpec(mm, w, h, policy);
      && (policy == OutsidePolicy.SkipAll ==>
            r.1 == w && forall e :: e in r.0 <==> e in mm && !HasExternalUsage(h, e.sound))
      && (policy == OutsidePolicy.SkipAndDuplicate ==>
            && |r.0| == |mm|
            && (forall i :: 0 <= i < |mm| && !HasExternalUsage(h, mm[i].sound) ==> r.0[i] == mm[i])
            && (forall i :: 0 <= i < |mm| && HasExternalUsage(h, mm[i].sound) ==>
                  w.nextSoundId <= r.0[i].sound.id && r.0[i] == Renamed(mm[i], r.0[i].sound.id)))
  {
    var flagged := FlaggedSpec(mm, h);
    FlaggedContents(mm, h);
    RemoveAllContents(mm, flagged);
    if |flagged| == 0 {
      forall i | 0 <= i < |mm|
        ensures !HasExternalUsage(h, mm[i].sound)
      {
        assert HasSound(mm, mm[i].sound);
      }
      forall e | e in mm
        ensures !HasExternalUsage(h, e.sound)
      {
        var i :| 0 <= i < |mm| && mm[i] == e;
        assert HasSound(mm, mm[i].sound);
      }
    } else if policy == OutsidePolicy.SkipAll {
      forall e | e in mm
        ensures e.sound in flagged <==> HasExternalUsage(h, e.sound)
      {
        var i :| 0 <= i < |mm| && mm[i] == e;
        assert HasSound(mm, mm[i].sound);
      }
    } else {
      DuplicateFlaggedContents(mm, w, flagged);
      forall i | 0 <= i < |mm|
        ensures mm[i].sound in flagged <==> HasExternalUsage(h, mm[i].sound)
      {
        assert HasSound(mm, mm[i].sound);
      }
    }
  }

  /** The world side of the policy: under SkipAll it is unchanged. Under
      SkipAndDuplicate no section appears or disappears; a section listed
      by an entry with an external usage, and by no later such entry, plays
      that entry's duplicate; a section no such entry lists keeps its
      record. */
  lemma OutsidePolicyRecords(mm: MultiMap, w: World, h: Host, policy: OutsidePolicy)
    ensures policy == OutsidePolicy.SkipAll ==> OutsidePolicySpec(mm, w, h, policy).1 == w
    ensures policy == OutsidePolicy.SkipAndDuplicate ==>
      && |OutsidePolicySpec(mm, w, h, policy).0| == |mm|
      && OutsidePolicySpec(mm, w, h, policy).1.sections.Keys == w.sections.Keys
      && (forall i, id :: (0 <= i < |mm| && id in w.sections && HasExternalUsage(h, mm[i].sound)
            && Some(id) in AllSections(mm[i].times)
            && (forall j :: i < j < |mm| && HasExternalUsage(h, mm[j].sound) ==> Some(id) !in AllSections(mm[j].times))) ==>
            OutsidePolicySpec(mm, w, h, policy).1.sections[id] == w.sections[id].(sound := Some(OutsidePolicySpec(mm, w, h, policy).0[i].sound)))
      && (forall id :: (id in w.sections
            && (forall j :: 0 <= j < |mm| && HasExternalUsage(h, mm[j].sound) ==> Some(id) !in AllSections(mm[j].times))) ==>
            OutsidePolicySpec(mm, w, h, policy).1.sections[id] == w.sections[id])
  {
    var flagged := FlaggedSpec(mm, h);
    FlaggedContents(mm, h);
    var r := OutsidePolicySpec(mm, w, h, policy);
    forall j | 0 <= j < |mm|
      ensures mm[j].sound in flagged <==> HasExternalUsage(h, mm[j].sound)
    {
      assert HasSound(mm, mm[j].sound);
    }
    if policy == OutsidePolicy.SkipAndDuplicate && |flagged| > 0 {
      forall id | id in w.sections
        ensures |r.0| == |mm| && id in r.1.sections
        ensures r.1.sections[id] == if LastFlaggedOwner(mm, flagged, id) < 0 then w.sections[id]
          else w.sections[id].(sound := Some(r.0[LastFlaggedOwner(mm, flagged, id)].sound))
      {
        DuplicateFlaggedRecords(mm, w, flagged, id);
      }
      forall i, id | 0 <= i < |mm| && id in w.sections && HasExternalUsage(h, mm[i].sound)
        && Some(id) in AllSections(mm[i].times)
        && (forall j :: i < j < |mm| && HasExternalUsage(h, mm[j].sound) ==> Some(id) !in AllSections(mm[j].times))
        ensures r.1.sections[id] == w.sections[id].(sound := Some(r.0[i].sound))
      {
        assert ListsFlagged(mm, flagged, i, id);
        assert forall j :: i < j < |mm| ==> !ListsFlagged(mm, flagged, j, id);
        assert LastFlaggedOwner(mm, flagged, id) == i;
      }
      DuplicateFlaggedShape(mm, w, flagged);
      DuplicateFlaggedKeys(mm, w, flagged);
    }
  }

  /** SkipAndDuplicate neither adds nor removes section records. */
  lemma {:induction false} DuplicateFlaggedKeys(mm: MultiMap, w: World, flagged: seq<SoundWave>)
    ensures DuplicateFlaggedSpec(mm, w, flagged).1.sections.Keys == w.sections.Keys
  {
    if |mm| > 0 {
      DuplicateFlaggedKeys(mm[..|mm| - 1], w, flagged);
    }
  }

  /** The outside-sequences policy makes no export attempt and records
      nothing but duplications. */
  lemma {:induction false} DuplicateFlaggedOnlyDuplicated(mm: MultiMap, w: World, flagged: seq<SoundWave>)
    ensures OnlyDuplicated(w, DuplicateFlaggedSpec(mm, w, flagged).1)
  {
    if |mm| > 0 {
      var prev := DuplicateFlaggedSpec(mm[..|mm| - 1], w, flagged);
      DuplicateFlaggedOnlyDuplicated(mm[..|mm| - 1], w, flagged);
      var e := mm[|mm| - 1];
      if e.sound in flagged {
        var made := DuplicateSoundWave(prev.1, e.sound, 1);
        assert OnlyDuplicated(prev.1, made.1) by {
          assert made.1.trace[..|prev.1.trace|] == prev.1.trace;
        }
        OnlyDuplicatedTrans(w, prev.1, made.1);
      }
    }
  }

  lemma OutsidePolicyOnlyDuplicated(mm: MultiMap, w: World, h: Host, policy: OutsidePolicy)
    ensures OnlyDuplicated(w, OutsidePolicySpec(mm, w, h, policy).1)
  {
    DuplicateFlaggedOnlyDuplicated(mm, w, FlaggedSpec(mm, h));
  }
}
