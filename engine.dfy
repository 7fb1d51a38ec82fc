/** The host engine as the audio trimmer sees it: sound wave assets, audio
    sections placed on the tracks of level sequences, the asset registry's
    referencers, and the results of the export, ffmpeg trim and reimport
    steps. The core only reads this data, except for the audio sections,
    whose sound, start offset and looping flag it rewrites, and the number of
    sound waves it creates by duplication. */
module Engine {
  import opened Wrappers

  type SectionId = nat
  type SequenceId = nat

  /** A USoundWave asset: its object identity, its object name, and its total
      duration in whole milliseconds (the engine rounds its float duration up). */
  datatype SoundWave = SoundWave(id: nat, name: string, durationMs: nat)

  /** A pointer to a UMovieSceneAudioSection; None is nullptr. */
  type SectionRef = Option<SectionId>

  /** The state of one audio section. `sound` is its sound cast to a sound
      wave (None for no sound or a sound of another class); `startOffsetMs`
      and `lengthMs` are its start offset into the sound and its length on the
      track, already converted from frames to milliseconds; `owner` is the
      level sequence that contains it, if any. */
  datatype AudioSection = AudioSection(
    sound: Option<SoundWave>,
    startOffsetMs: int,
    lengthMs: int,
    looping: bool,
    owner: Option<SequenceId>)

  /** A track of a level sequence's movie scene. */
  datatype Track = AudioTrack(sections: seq<SectionRef>) | OtherTrack

  /** An asset that references a sound wave, as the asset registry reports it. */
  datatype Usage = LevelSequenceUsage(sequence: SequenceId) | OtherUsage(asset: nat)

  /** What the core asks of the host and cannot see: the tracks of each level
      sequence, the referencers of each sound wave, and whether the n-th
      export -> trim -> reimport attempt succeeds at each of its steps. */
  datatype Host = Host(
    tracksOf: SequenceId -> seq<Track>,
    usagesOf: SoundWave -> seq<Usage>,
    exportOk: nat -> bool,
    trimOk: nat -> bool,
    reimportOk: nat -> bool)

  /** How one export -> trim -> reimport attempt ended. */
  datatype Outcome = ExportFailed | TrimFailed | ReimportFailed | Succeeded

  /** The externally visible steps of a run, in the order they happen. */
  datatype Action =
    | Duplicated(original: SoundWave, index: int, copy: SoundWave)
    | Processed(section: SectionRef, sound: SoundWave, startMs: int, endMs: int, outcome: Outcome)
    | Reused(section: SectionRef, sound: SoundWave)

  /** The mutable part of the host: the audio sections by identity, the next
      object identity the engine hands out to a new sound wave, the number of
      export attempts so far and the trace of actions. */
  datatype World = World(
    sections: map<SectionId, AudioSection>,
    nextSoundId: nat,
    attempts: nat,
    trace: seq<Action>)

  /** Dereferences a section pointer; an identity the host does not know
      behaves like nullptr. */
  function SectionAt(w: World, s: SectionRef): (r: Option<AudioSection>)
    ensures r.Some? <==> s.Some? && s.value in w.sections
    ensures r.Some? ==> r.value == w.sections[s.value]
  {
    if s.Some? && s.value in w.sections then Some(w.sections[s.value]) else None
  }

  /** UMovieSceneAudioSection::SetSound on one section. */
  function SetSectionSound(w: World, s: SectionRef, sound: Option<SoundWave>): (r: World)
    ensures r.sections.Keys == w.sections.Keys
    ensures r.nextSoundId == w.nextSoundId && r.attempts == w.attempts && r.trace == w.trace
    ensures forall id :: id in w.sections && s != Some(id) ==> r.sections[id] == w.sections[id]
    ensures s.Some? && s.value in w.sections ==> r.sections[s.value] == w.sections[s.value].(sound := sound)
  {
    if s.Some? && s.value in w.sections
    then w.(sections := w.sections[s.value := w.sections[s.value].(sound := sound)])
    else w
  }

  /** From w to w' no export attempt was made and the only actions added are
      duplications. */
  predicate OnlyDuplicated(w: World, w': World) {
    && w'.attempts == w.attempts
    && |w.trace| <= |w'.trace| && w'.trace[..|w.trace|] == w.trace
    && forall k :: |w.trace| <= k < |w'.trace| ==> w'.trace[k].Duplicated?
  }

  lemma OnlyDuplicatedTrans(w1: World, w2: World, w3: World)
    requires OnlyDuplicated(w1, w2) && OnlyDuplicated(w2, w3)
    ensures OnlyDuplicated(w1, w3)
  {
    assert w3.trace[..|w1.trace|] == w3.trace[..|w2.trace|][..|w1.trace|];
    forall k | |w1.trace| <= k < |w3.trace|
      ensures w3.trace[k].Duplicated?
    {
      if k < |w2.trace| {
        assert w3.trace[k] == w3.trace[..|w2.trace|][k];
      }
    }
  }
}
