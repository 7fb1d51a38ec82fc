/** The main flow of RunLevelSequenceAudioTrimmer: for every sound wave and
    every window of it, the first section whose export -> trim -> reimport
    succeeds is trimmed, and the sections after it reuse the trimmed sound;
    windows of one sound wave other than the last are trimmed into
    duplicates so that they do not break each other. */
module MainFlow {
  import opened Wrappers
  import opened Engine
  import opened TrimTimes
  import opened SectionsContainer
  import opened TrimMap
  import opened TrimTimesMultiMap
  import opened DuplicateSound
  import opened PolicyTypes

  // ---------------------------------------------------------------------------
  // ResetTrimmedAudioSection

  /** The section plays the new sound from its beginning, without looping;
      nothing happens for a null section or a null sound. */
  function ResetTrimmedAudioSection(w: World, s: SectionRef, sound: Option<SoundWave>): (r: World)
    ensures r.sections.Keys == w.sections.Keys
    ensures r.nextSoundId == w.nextSoundId && r.attempts == w.attempts && r.trace == w.trace
    ensures forall id :: id in w.sections && s != Some(id) ==> r.sections[id] == w.sections[id]
    ensures (s.None? || s.value !in w.sections || sound.None?) ==> r == w
    ensures s.Some? && s.value in w.sections && sound.Some? ==>
      var before := w.sections[s.value];
      var after := r.sections[s.value];
      && after.sound == sound && after.startOffsetMs == 0 && !after.looping
      && after.lengthMs == before.lengthMs && after.owner == before.owner
  {
    if s.None? || s.value !in w.sections || sound.None? then w
    else
      var sec := w.sections[s.value];
      w.(sections := w.sections[s.value := sec.(sound := sound, startOffsetMs := 0, looping := false)])
  }

  /** Resetting the section again changes nothing. */
  lemma ResetIdempotent(w: World, s: SectionRef, sound: Option<SoundWave>)
    ensures ResetTrimmedAudioSection(ResetTrimmedAudioSection(w, s, sound), s, sound) == ResetTrimmedAudioSection(w, s, sound)
  {
  }

  // ---------------------------------------------------------------------------
  // One group: the sections of one window

  /** How the attempt numbered `w.attempts` ends: the export, then the trim,
      which also refuses an invalid window, then the reimport. */
  function AttemptOutcome(h: Host, w: World, key: TrimTimes): Outcome {
    var n := w.attempts;
    if !h.exportOk(n) then ExportFailed
    else if !IsValid(key) || !h.trimOk(n) then TrimFailed
    else if !h.reimportOk(n) then ReimportFailed
    else Succeeded
  }

  /** One section: reused once a section of the group has been trimmed,
      otherwise tried as the primary one. */
  function SectionStep(h: Host, st: (World, bool), s: SectionRef, sound: SoundWave, key: TrimTimes): (World, bool) {
    var w := st.0;
    if st.1 then
      var r := ResetTrimmedAudioSection(w, s, Some(sound));
      (r.(trace := r.trace + [Reused(s, sound)]), true)
    else
      var outcome := AttemptOutcome(h, w, key);
      var tried := w.(attempts := w.attempts + 1,
                      trace := w.trace + [Processed(s, sound, key.startMs, key.endMs, outcome)]);
      if outcome == Succeeded then (ResetTrimmedAudioSection(tried, s, Some(sound)), true)
      else (tried, false)
  }

  function SectionsSpec(h: Host, w: World, secs: Sections, sound: SoundWave, key: TrimTimes): (World, bool) {
    if |secs| == 0 then (w, false)
    else SectionStep(h, SectionsSpec(h, w, secs[..|secs| - 1], sound, key), secs[|secs| - 1], sound, key)
  }

  method ProcessSections(h: Host, w: World, secs: Sections, sound: SoundWave, key: TrimTimes)
    returns (w': World, reuse: bool)
    ensures (w', reuse) == SectionsSpec(h, w, secs, sound, key)
  {
    w', reuse := w, false;
    var i := 0;
    while i < |secs|
      invariant 0 <= i <= |secs|
      invariant (w', reuse) == SectionsSpec(h, w, secs[..i], sound, key)
    {
      assert secs[..i + 1][..i] == secs[..i];
      var s := secs[i];
      if reuse {
        w' := ResetTrimmedAudioSection(w', s, Some(sound));
        w' := w'.(trace := w'.trace + [Reused(s, sound)]);
      } else {
        var outcome := AttemptOutcome(h, w', key);
        w' := w'.(attempts := w'.attempts + 1,
                  trace := w'.trace + [Processed(s, sound, key.startMs, key.endMs, outcome)]);
        if outcome == Succeeded {
          w' := ResetTrimmedAudioSection(w', s, Some(sound));
          reuse := true;
        }
      }
      i := i + 1;
    }
    assert secs[..i] == secs;
  }

  predicate IsSuccess(a: Action) {
    a.Processed? && a.outcome == Succeeded
  }

  function ActionSection(a: Action): SectionRef {
    match a
    case Duplicated(_, _, _) => None
    case Processed(s, _, _, _, _) => s
    case Reused(s, _) => s
  }

  /** An attempt among t[lo..hi] succeeded. */
  predicate SucceededIn(t: seq<Action>, lo: int, hi: int)
    requires 0 <= lo <= hi <= |t|
  {
    exists j :: lo <= j < hi && IsSuccess(t[j])
  }

  /** The action one section leaves in the trace. */
  function StepAction(h: Host, st: (World, bool), s: SectionRef, sound: SoundWave, key: TrimTimes): Action {
    if st.1 then Reused(s, sound)
    else Processed(s, sound, key.startMs, key.endMs, AttemptOutcome(h, st.0, key))
  }

  lemma SectionStepAppends(h: Host, st: (World, bool), s: SectionRef, sound: SoundWave, key: TrimTimes)
    ensures SectionStep(h, st, s, sound, key).0.trace == st.0.trace + [StepAction(h, st, s, sound, key)]
    ensures SectionStep(h, st, s, sound, key).0.sections.Keys == st.0.sections.Keys
    ensures SectionStep(h, st, s, sound, key).0.nextSoundId == st.0.nextSoundId
    ensures SectionStep(h, st, s, sound, key).1 <==> st.1 || IsSuccess(StepAction(h, st, s, sound, key))
  {
  }

  /** The trace after a group. */
  function GroupTraceOf(h: Host, w: World, secs: Sections, sound: SoundWave, key: TrimTimes): seq<Action> {
    SectionsSpec(h, w, secs, sound, key).0.trace
  }

  lemma SucceededInPrefix(t: seq<Action>, pt: seq<Action>, lo: int, hi: int)
    requires 0 <= lo <= hi <= |pt| <= |t| && t[..|pt|] == pt
    ensures SucceededIn(t, lo, hi) == SucceededIn(pt, lo, hi)
  {
    forall j | lo <= j < hi
      ensures t[j] == pt[j]
    {
      assert t[..|pt|][j] == t[j];
    }
  }

  /** A group appends one action per section and changes neither which
      sections exist nor the fresh sound-wave counter. */
  lemma {:induction false} SectionsTraceShape(h: Host, w: World, secs: Sections, sound: SoundWave, key: TrimTimes)
    ensures |GroupTraceOf(h, w, secs, sound, key)| == |w.trace| + |secs|
    ensures GroupTraceOf(h, w, secs, sound, key)[..|w.trace|] == w.trace
    ensures SectionsSpec(h, w, secs, sound, key).0.sections.Keys == w.sections.Keys
    ensures SectionsSpec(h, w, secs, sound, key).0.nextSoundId == w.nextSoundId
  {
    if |secs| > 0 {
      var init := secs[..|secs| - 1];
      SectionsTraceShape(h, w, init, sound, key);
      SectionStepAppends(h, SectionsSpec(h, w, init, sound, key), secs[|secs| - 1], sound, key);
    }
  }

  /** The action at position k of the group belongs to the k-th section,
      is on the group's sound and, when it is an attempt, trims to the
      group's window. */
  lemma {:induction false} SectionsTraceSectionAt(h: Host, w: World, secs: Sections, sound: SoundWave, key: TrimTimes, k: int)
    requires |w.trace| <= k < |w.trace| + |secs|
    ensures k < |GroupTraceOf(h, w, secs, sound, key)| &&
      ActionSection(GroupTraceOf(h, w, secs, sound, key)[k]) == secs[k - |w.trace|]
      && !GroupTraceOf(h, w, secs, sound, key)[k].Duplicated?
      && GroupTraceOf(h, w, secs, sound, key)[k].sound == sound
      && (GroupTraceOf(h, w, secs, sound, key)[k].Processed? ==>
            GroupTraceOf(h, w, secs, sound, key)[k].startMs == key.startMs
            && GroupTraceOf(h, w, secs, sound, key)[k].endMs == key.endMs)
  {
    var init := secs[..|secs| - 1];
    var prev := SectionsSpec(h, w, init, sound, key);
    SectionsTraceShape(h, w, init, sound, key);
    SectionStepAppends(h, prev, secs[|secs| - 1], sound, key);
    if k < |w.trace| + |init| {
      SectionsTraceSectionAt(h, w, init, sound, key, k);
      assert secs[k - |w.trace|] == init[k - |w.trace|];
    }
  }

  /** The reuse flag says whether an attempt of the group succeeded. */
  lemma {:induction false} SectionsTraceFlag(h: Host, w: World, secs: Sections, sound: SoundWave, key: TrimTimes)
    ensures |w.trace| <= |GroupTraceOf(h, w, secs, sound, key)| &&
      (SectionsSpec(h, w, secs, sound, key).1 <==>
       SucceededIn(GroupTraceOf(h, w, secs, sound, key), |w.trace|, |GroupTraceOf(h, w, secs, sound, key)|))
  {
    SectionsTraceShape(h, w, secs, sound, key);
    if |secs| > 0 {
      var init := secs[..|secs| - 1];
      var prev := SectionsSpec(h, w, init, sound, key);
      SectionsTraceFlag(h, w, init, sound, key);
      SectionsTraceShape(h, w, init, sound, key);
      SectionStepAppends(h, prev, secs[|secs| - 1], sound, key);
      var t := GroupTraceOf(h, w, secs, sound, key);
      var pt := prev.0.trace;
      SucceededInPrefix(t, pt, |w.trace|, |pt|);
      assert t[|pt|] == StepAction(h, prev, secs[|secs| - 1], sound, key);
    }
  }

  /** A section is reused exactly when an earlier section of the group
      succeeded. */
  lemma {:induction false} SectionsTraceReusedAt(h: Host, w: World, secs: Sections, sound: SoundWave, key: TrimTimes, k: int)
    requires |w.trace| <= k < |w.trace| + |secs|
    ensures k < |GroupTraceOf(h, w, secs, sound, key)| &&
      (GroupTraceOf(h, w, secs, sound, key)[k].Reused? <==>
       SucceededIn(GroupTraceOf(h, w, secs, sound, key), |w.trace|, k))
  {
    var init := secs[..|secs| - 1];
    var prev := SectionsSpec(h, w, init, sound, key);
    SectionsTraceShape(h, w, init, sound, key);
    SectionsTraceShape(h, w, secs, sound, key);
    SectionStepAppends(h, prev, secs[|secs| - 1], sound, key);
    var t := GroupTraceOf(h, w, secs, sound, key);
    var pt := prev.0.trace;
    SucceededInPrefix(t, pt, |w.trace|, k);
    if k < |pt| {
      SectionsTraceReusedAt(h, w, init, sound, key, k);
      assert t[k] == pt[k];
    } else {
      SectionsTraceFlag(h, w, init, sound, key);
    }
  }

  /** At most one attempt of a group succeeds. */
  lemma {:induction false} SectionsTraceOnce(h: Host, w: World, secs: Sections, sound: SoundWave, key: TrimTimes, i: int, j: int)
    requires |w.trace| <= i < j < |w.trace| + |secs|
    ensures j < |GroupTraceOf(h, w, secs, sound, key)| &&
      (IsSuccess(GroupTraceOf(h, w, secs, sound, key)[i]) ==> !IsSuccess(GroupTraceOf(h, w, secs, sound, key)[j]))
  {
    var init := secs[..|secs| - 1];
    var prev := SectionsSpec(h, w, init, sound, key);
    SectionsTraceShape(h, w, init, sound, key);
    SectionsTraceShape(h, w, secs, sound, key);
    SectionStepAppends(h, prev, secs[|secs| - 1], sound, key);
    var t := GroupTraceOf(h, w, secs, sound, key);
    var pt := prev.0.trace;
    assert t[i] == pt[i];
    if j < |pt| {
      SectionsTraceOnce(h, w, init, sound, key, i, j);
      assert t[j] == pt[j];
    } else if IsSuccess(t[i]) {
      SectionsTraceFlag(h, w, init, sound, key);
      assert SucceededIn(pt, |w.trace|, |pt|);
    }
  }

  /** Within a group, one action per section in order, on the group's sound
      and, for an attempt, the group's window: a section is only reused, with
      no attempt, exactly when an earlier one succeeded, so a failed attempt
      leaves the next section to be tried as primary, and at most one attempt
      succeeds. The reuse flag says whether one did. */
  lemma SectionsTrace(h: Host, w: World, secs: Sections, sound: SoundWave, key: TrimTimes)
    ensures var r := SectionsSpec(h, w, secs, sound, key);
      var t := r.0.trace;
      var o := |w.trace|;
      && |t| == o + |secs| && t[..o] == w.trace
      && r.0.sections.Keys == w.sections.Keys && r.0.nextSoundId == w.nextSoundId
      && (forall k :: o <= k < |t| ==> ActionSection(t[k]) == secs[k - o] && !t[k].Duplicated? && t[k].sound == sound)
      && (forall k :: o <= k < |t| && t[k].Processed? ==> t[k].startMs == key.startMs && t[k].endMs == key.endMs)
      && (forall k :: o <= k < |t| ==> (t[k].Reused? <==> SucceededIn(t, o, k)))
      && (forall i, j :: o <= i < j < |t| && IsSuccess(t[i]) ==> !IsSuccess(t[j]))
      && (r.1 <==> SucceededIn(t, o, |t|))
  {
    SectionsTraceShape(h, w, secs, sound, key);
    SectionsTraceFlag(h, w, secs, sound, key);
    var t := GroupTraceOf(h, w, secs, sound, key);
    var o := |w.trace|;
    forall k | o <= k < |t|
      ensures ActionSection(t[k]) == secs[k - o] && !t[k].Duplicated? && t[k].sound == sound
      ensures t[k].Processed? ==> t[k].startMs == key.startMs && t[k].endMs == key.endMs
      ensures t[k].Reused? <==> SucceededIn(t, o, k)
    {
      SectionsTraceSectionAt(h, w, secs, sound, key, k);
      SectionsTraceReusedAt(h, w, secs, sound, key, k);
    }
    forall i, j | o <= i < j < |t| && IsSuccess(t[i])
      ensures !IsSuccess(t[j])
    {
      SectionsTraceOnce(h, w, secs, sound, key, i, j);
    }
  }

  /** The record of a section that now plays `sound` from its beginning,
      without looping, on the same track place as before. */
  predicate IsResetTo(after: AudioSection, before: AudioSection, sound: SoundWave) {
    && after.sound == Some(sound) && after.startOffsetMs == 0 && !after.looping
    && after.lengthMs == before.lengthMs && after.owner == before.owner
  }

  /** One section: its record is reset when the group holds a trimmed sound
      after the step, and every other record stays as it was. */
  lemma SectionStepRecord(h: Host, st: (World, bool), s: SectionRef, sound: SoundWave, key: TrimTimes, id: SectionId)
    requires id in st.0.sections
    ensures id in SectionStep(h, st, s, sound, key).0.sections
    ensures s == Some(id) && SectionStep(h, st, s, sound, key).1 ==>
      IsResetTo(SectionStep(h, st, s, sound, key).0.sections[id], st.0.sections[id], sound)
    ensures !(s == Some(id) && SectionStep(h, st, s, sound, key).1) ==>
      SectionStep(h, st, s, sound, key).0.sections[id] == st.0.sections[id]
  {
  }

  /** The section `id` sits in the group at or after its first successful
      attempt, the group's actions starting at position o of the trace. */
  predicate Touched(t: seq<Action>, o: nat, secs: Sections, id: SectionId)
    requires o + |secs| <= |t|
  {
    exists k :: 0 <= k < |secs| && secs[k] == Some(id) && SucceededIn(t, o, o + k + 1)
  }

  /** Touched after one more section: touched before, or the new section is
      `id` and an attempt of the group has succeeded; being touched before
      needs an earlier success. */
  lemma TouchedSnoc(t: seq<Action>, pt: seq<Action>, o: nat, secs: Sections, id: SectionId)
    requires |secs| > 0 && |pt| == o + |secs| - 1 && |t| == |pt| + 1 && t[..|pt|] == pt
    ensures Touched(t, o, secs, id) <==>
      Touched(pt, o, secs[..|secs| - 1], id) || (secs[|secs| - 1] == Some(id) && SucceededIn(t, o, |t|))
    ensures Touched(pt, o, secs[..|secs| - 1], id) ==> SucceededIn(pt, o, |pt|)
  {
    var n := |secs| - 1;
    var init := secs[..n];
    forall k | 0 <= k < n
      ensures SucceededIn(t, o, o + k + 1) == SucceededIn(pt, o, o + k + 1)
      ensures secs[k] == init[k]
    {
      SucceededInPrefix(t, pt, o, o + k + 1);
    }
    if Touched(pt, o, init, id) {
      var k :| 0 <= k < n && init[k] == Some(id) && SucceededIn(pt, o, o + k + 1);
      var j :| o <= j < o + k + 1 && IsSuccess(pt[j]);
      assert SucceededIn(pt, o, |pt|);
      assert SucceededIn(t, o, o + k + 1);
    }
    if secs[n] == Some(id) && SucceededIn(t, o, |t|) {
      assert SucceededIn(t, o, o + n + 1);
    }
  }

  /** The records a group leaves: a section that sits at or after the first
      successful attempt plays the group's sound from its beginning without
      looping; a section that sits only before it, as a failed attempt, or
      not at all keeps its record. */
  lemma {:induction false} SectionsRecord(h: Host, w: World, secs: Sections, sound: SoundWave, key: TrimTimes, id: SectionId)
    requires id in w.sections
    ensures |GroupTraceOf(h, w, secs, sound, key)| == |w.trace| + |secs| && id in SectionsSpec(h, w, secs, sound, key).0.sections
    ensures if Touched(GroupTraceOf(h, w, secs, sound, key), |w.trace|, secs, id)
      then IsResetTo(SectionsSpec(h, w, secs, sound, key).0.sections[id], w.sections[id], sound)
      else SectionsSpec(h, w, secs, sound, key).0.sections[id] == w.sections[id]
  {
    SectionsTraceShape(h, w, secs, sound, key);
    if |secs| > 0 {
      var n := |secs| - 1;
      var init := secs[..n];
      var prev := SectionsSpec(h, w, init, sound, key);
      SectionsRecord(h, w, init, sound, key, id);
      SectionStepAppends(h, prev, secs[n], sound, key);
      SectionStepRecord(h, prev, secs[n], sound, key, id);
      SectionsTraceShape(h, w, init, sound, key);
      SectionsTraceFlag(h, w, init, sound, key);
      SectionsTraceFlag(h, w, secs, sound, key);
      TouchedSnoc(GroupTraceOf(h, w, secs, sound, key), prev.0.trace, |w.trace|, secs, id);
    }
  }

  // ---------------------------------------------------------------------------
  // One sound wave: its windows as groups

  /** The walk over the windows of a sound wave: the world and GroupIndex. */
  datatype GroupState = GroupState(w: World, groupIndex: nat)

  /** The sound a group is trimmed into: a duplicate numbered GroupIndex + 1
      for every group before the last under ReimportOneAndDuplicateOthers,
      the original sound wave otherwise. */
  function WorkingSound(st: GroupState, original: SoundWave, groups: nat, policy: DifferentTrimTimesPolicy): (r: (SoundWave, World))
    ensures r.0 == TrimmedSound(st, original, groups, policy)
    ensures r.1.sections == st.w.sections && r.1.attempts == st.w.attempts
    ensures Duplicates(st, groups, policy) ==>
      r.1.nextSoundId == st.w.nextSoundId + 1 && r.1.trace == st.w.trace + [Duplicated(original, st.groupIndex + 1, r.0)]
    ensures !Duplicates(st, groups, policy) ==> r.1 == st.w
  {
    if st.groupIndex < groups - 1 && policy == ReimportOneAndDuplicateOthers then
      var made := DuplicateSoundWave(st.w, original, st.groupIndex + 1);
      (made.0.value, made.1)
    else (original, st.w)
  }

  /** The group is one before the last under ReimportOneAndDuplicateOthers. */
  predicate Duplicates(st: GroupState, groups: nat, policy: DifferentTrimTimesPolicy) {
    st.groupIndex < groups - 1 && policy == ReimportOneAndDuplicateOthers
  }

  /** The sound wave the group at GroupIndex is trimmed into: a fresh sound
      wave named after the original with suffix GroupIndex + 1 and of the
      same duration while it duplicates, the original one otherwise. */
  function TrimmedSound(st: GroupState, original: SoundWave, groups: nat, policy: DifferentTrimTimesPolicy): SoundWave {
    if Duplicates(st, groups, policy) then SoundWave(st.w.nextSoundId, DuplicateName(original.name, st.groupIndex + 1), original.durationMs)
    else original
  }

  /** One window: skipped, without counting, when the sound is already
      trimmed to it. */
  function GroupStep(h: Host, cfg: Config, original: SoundWave, groups: nat, st: GroupState, e: Entry): GroupState {
    if IsSoundTrimmed(e.key, cfg.tolerance) then st
    else
      var working := WorkingSound(st, original, groups, cfg.different);
      GroupState(SectionsSpec(h, working.1, e.sections, working.0, e.key).0, st.groupIndex + 1)
  }

  function GroupsSpec(h: Host, cfg: Config, original: SoundWave, groups: nat, st: GroupState, entries: TrimTimesMap): GroupState {
    if |entries| == 0 then st
    else GroupStep(h, cfg, original, groups, GroupsSpec(h, cfg, original, groups, st, entries[..|entries| - 1]), entries[|entries| - 1])
  }

  /** One sound wave: skipped altogether under SkipAll when it has more than
      one window. */
  function SoundSpec(h: Host, cfg: Config, w: World, e: SoundEntry): World {
    if |e.times| > 1 && cfg.different == DifferentTrimTimesPolicy.SkipAll then w
    else GroupsSpec(h, cfg, e.sound, |e.times|, GroupState(w, 0), e.times).w
  }

  /** The whole main flow over the multimap. */
  function MainFlowSpec(h: Host, cfg: Config, w: World, mm: MultiMap): World {
    if |mm| == 0 then w
    else SoundSpec(h, cfg, MainFlowSpec(h, cfg, w, mm[..|mm| - 1]), mm[|mm| - 1])
  }

  /** A processed window: a duplicate first when the group duplicates, then
      one action per section, each on the trimmed sound; every section record
      either stays as it was or is reset to play the trimmed sound. */
  lemma GroupStepWorks(h: Host, cfg: Config, original: SoundWave, groups: nat, st: GroupState, e: Entry)
    requires !IsSoundTrimmed(e.key, cfg.tolerance)
    ensures GroupStep(h, cfg, original, groups, st, e).groupIndex == st.groupIndex + 1
    ensures GroupStep(h, cfg, original, groups, st, e).w.sections.Keys == st.w.sections.Keys
    ensures |GroupStep(h, cfg, original, groups, st, e).w.trace| ==
      |st.w.trace| + (if Duplicates(st, groups, cfg.different) then 1 else 0) + |e.sections|
    ensures GroupStep(h, cfg, original, groups, st, e).w.trace[..|st.w.trace|] == st.w.trace
    ensures Duplicates(st, groups, cfg.different) ==>
      GroupStep(h, cfg, original, groups, st, e).w.trace[|st.w.trace|] ==
        Duplicated(original, st.groupIndex + 1, TrimmedSound(st, original, groups, cfg.different))
    ensures forall k :: |st.w.trace| + (if Duplicates(st, groups, cfg.different) then 1 else 0) <= k < |GroupStep(h, cfg, original, groups, st, e).w.trace| ==>
      !GroupStep(h, cfg, original, groups, st, e).w.trace[k].Duplicated?
      && GroupStep(h, cfg, original, groups, st, e).w.trace[k].sound == TrimmedSound(st, original, groups, cfg.different)
    ensures forall id :: id in st.w.sections ==>
      GroupStep(h, cfg, original, groups, st, e).w.sections[id] == st.w.sections[id]
      || IsResetTo(GroupStep(h, cfg, original, groups, st, e).w.sections[id], st.w.sections[id], TrimmedSound(st, original, groups, cfg.different))
  {
    var working := WorkingSound(st, original, groups, cfg.different);
    var r := SectionsSpec(h, working.1, e.sections, working.0, e.key);
    SectionsTrace(h, working.1, e.sections, working.0, e.key);
    var t := r.0.trace;
    assert t[..|working.1.trace|] == working.1.trace;
    if Duplicates(st, groups, cfg.different) {
      assert t[|st.w.trace|] == working.1.trace[|st.w.trace|];
      assert t[..|st.w.trace|] == working.1.trace[..|st.w.trace|];
    }
    forall id | id in st.w.sections
      ensures r.0.sections[id] == st.w.sections[id] || IsResetTo(r.0.sections[id], st.w.sections[id], working.0)
    {
      SectionsRecord(h, working.1, e.sections, working.0, e.key, id);
    }
  }

  method ProcessGroups(h: Host, cfg: Config, w: World, e: SoundEntry) returns (w': World)
    ensures w' == SoundSpec(h, cfg, w, e)
  {
    var inner := e.times;
    if |inner| > 1 && cfg.different == DifferentTrimTimesPolicy.SkipAll {
      return w;
    }
    w' := w;
    var groupIndex: nat := 0;
    var i := 0;
    while i < |inner|
      invariant 0 <= i <= |inner|
      invariant GroupState(w', groupIndex) == GroupsSpec(h, cfg, e.sound, |inner|, GroupState(w, 0), inner[..i])
    {
      GroupsSnoc(h, cfg, e.sound, |inner|, GroupState(w, 0), inner, i);
      w', groupIndex := ProcessGroup(h, cfg, e.sound, |inner|, w', groupIndex, inner[i]);
      i := i + 1;
    }
    assert inner[..i] == inner;
  }

  /** The body of the loop over the windows of one sound wave. */
  method ProcessGroup(h: Host, cfg: Config, original: SoundWave, groups: nat, w: World, groupIndex: nat, e: Entry)
    returns (w': World, groupIndex': nat)
    ensures GroupState(w', groupIndex') == GroupStep(h, cfg, original, groups, GroupState(w, groupIndex), e)
  {
    w', groupIndex' := w, groupIndex;
    if !IsSoundTrimmed(e.key, cfg.tolerance) {
      var trimmed := original;
      if groupIndex < groups - 1 && cfg.different == ReimportOneAndDuplicateOthers {
        var made := DuplicateSoundWave(w', trimmed, groupIndex + 1);
        trimmed, w' := made.0.value, made.1;
      }
      assert (trimmed, w') == WorkingSound(GroupState(w, groupIndex), original, groups, cfg.different);
      var reused;
      w', reused := ProcessSections(h, w', e.sections, trimmed, e.key);
      groupIndex' := groupIndex + 1;
    }
  }

  lemma GroupsSnoc(h: Host, cfg: Config, original: SoundWave, groups: nat, st: GroupState, entries: TrimTimesMap, i: int)
    requires 0 <= i < |entries|
    ensures GroupsSpec(h, cfg, original, groups, st, entries[..i + 1]) ==
      GroupStep(h, cfg, original, groups, GroupsSpec(h, cfg, original, groups, st, entries[..i]), entries[i])
  {
    assert entries[..i + 1][..i] == entries[..i];
  }

  method ExecuteMainFlow(h: Host, cfg: Config, w: World, mm: MultiMap) returns (w': World)
    ensures w' == MainFlowSpec(h, cfg, w, mm)
  {
    w' := w;
    var i := 0;
    while i < |mm|
      invariant 0 <= i <= |mm|
      invariant w' == MainFlowSpec(h, cfg, w, mm[..i])
    {
      assert mm[..i + 1][..i] == mm[..i];
      w' := ProcessGroups(h, cfg, w', mm[i]);
      i := i + 1;
    }
    assert mm[..i] == mm;
  }

  /** The windows the main flow does not skip as already trimmed. */
  function Untrimmed(entries: TrimTimesMap, tolerance: Tolerance): nat {
    if |entries| == 0 then 0
    else Untrimmed(entries[..|entries| - 1], tolerance) + (if IsSoundTrimmed(entries[|entries| - 1].key, tolerance) then 0 else 1)
  }

  /** GroupIndex counts only the windows that are not skipped, and one
      duplicate is made per processed group except the one at index
      groups - 1: so the last group works on the original sound wave only
      when no window was skipped, and under SkipAll no duplicate is made. */
  lemma {:induction false} GroupsCount(h: Host, cfg: Config, original: SoundWave, groups: nat, w: World, entries: TrimTimesMap)
    requires |entries| <= groups
    ensures var r := GroupsSpec(h, cfg, original, groups, GroupState(w, 0), entries);
      var n := Untrimmed(entries, cfg.tolerance);
      && r.groupIndex == n
      && r.w.nextSoundId == w.nextSoundId +
           (if cfg.different == DifferentTrimTimesPolicy.SkipAll then 0
            else if n < groups || n == 0 then n else groups - 1)
  {
    if |entries| > 0 {
      var init := entries[..|entries| - 1];
      var e := entries[|entries| - 1];
      GroupsCount(h, cfg, original, groups, w, init);
      var prev := GroupsSpec(h, cfg, original, groups, GroupState(w, 0), init);
      assert Untrimmed(init, cfg.tolerance) <= |init| by { UntrimmedBound(init, cfg.tolerance); }
      if !IsSoundTrimmed(e.key, cfg.tolerance) {
        var working := WorkingSound(prev, original, groups, cfg.different);
        SectionsTraceShape(h, working.1, e.sections, working.0, e.key);
      }
    }
  }

  /** The window at position i, once the windows before it are walked, is
      processed as group n, n being the untrimmed windows before it; it is
      trimmed into the fresh sound wave numbered w.nextSoundId + n and named
      with suffix n + 1 while n < groups - 1 under
      ReimportOneAndDuplicateOthers, and into the original otherwise. */
  lemma GroupsTrimmedSound(h: Host, cfg: Config, original: SoundWave, groups: nat, w: World, entries: TrimTimesMap, i: int)
    requires |entries| <= groups && 0 <= i < |entries|
    ensures GroupsSpec(h, cfg, original, groups, GroupState(w, 0), entries[..i]).groupIndex == Untrimmed(entries[..i], cfg.tolerance)
    ensures TrimmedSound(GroupsSpec(h, cfg, original, groups, GroupState(w, 0), entries[..i]), original, groups, cfg.different) ==
      if Untrimmed(entries[..i], cfg.tolerance) < groups - 1 && cfg.different == ReimportOneAndDuplicateOthers
      then SoundWave(w.nextSoundId + Untrimmed(entries[..i], cfg.tolerance),
                     DuplicateName(original.name, Untrimmed(entries[..i], cfg.tolerance) + 1), original.durationMs)
      else original
  {
    GroupsCount(h, cfg, original, groups, w, entries[..i]);
    UntrimmedBound(entries[..i], cfg.tolerance);
  }

  lemma {:induction false} UntrimmedBound(entries: TrimTimesMap, tolerance: Tolerance)
    ensures Untrimmed(entries, tolerance) <= |entries|
  {
    if |entries| > 0 {
      UntrimmedBound(entries[..|entries| - 1], tolerance);
    }
  }

  /** A sound wave whose windows are all already trimmed is left alone. */
  lemma {:induction false} AllTrimmedUntouched(h: Host, cfg: Config, original: SoundWave, groups: nat, st: GroupState, entries: TrimTimesMap)
    requires forall j :: 0 <= j < |entries| ==> IsSoundTrimmed(entries[j].key, cfg.tolerance)
    ensures GroupsSpec(h, cfg, original, groups, st, entries) == st
  {
    if |entries| > 0 {
      AllTrimmedUntouched(h, cfg, original, groups, st, entries[..|entries| - 1]);
    }
  }

  /** The entries the SkipAll policy lets through: at most one window. */
  function SingleWindow(mm: MultiMap): MultiMap {
    if |mm| == 0 then []
    else SingleWindow(mm[..|mm| - 1]) + (if |mm[|mm| - 1].times| > 1 then [] else [mm[|mm| - 1]])
  }

  /** Under SkipAll a sound wave with more than one window gets no processing
      at all: the main flow acts as if it were not in the multimap. */
  lemma {:induction false} SkipAllIgnoresMultiWindow(h: Host, cfg: Config, w: World, mm: MultiMap)
    requires cfg.different == DifferentTrimTimesPolicy.SkipAll
    ensures MainFlowSpec(h, cfg, w, mm) == MainFlowSpec(h, cfg, w, SingleWindow(mm))
  {
    if |mm| > 0 {
      var init := mm[..|mm| - 1];
      var e := mm[|mm| - 1];
      SkipAllIgnoresMultiWindow(h, cfg, w, init);
      if |e.times| <= 1 {
        var s := SingleWindow(init) + [e];
        assert s[..|s| - 1] == SingleWindow(init);
      } else {
        assert SingleWindow(mm) == SingleWindow(init);
      }
    }
  }
}
