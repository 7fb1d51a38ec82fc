/** RunLevelSequenceAudioTrimmer: the preprocessing passes for every
    requested level sequence in turn, stopping the whole run as soon as a
    sequence leaves the multimap empty, then the main flow. */
module Trimmer {
  import opened Wrappers
  import opened Engine
  import opened TrimTimes
  import opened TrimTimesMultiMap
  import opened AudioSections
  import opened PolicyTypes
  import opened Preprocessing
  import opened LoopingSounds
  import opened OutsideSounds
  import opened MainFlow

  /** The three passes that follow the first one for a level sequence. */
  function AfterRequested(w: World, h: Host, cfg: Config, mm: MultiMap): (MultiMap, World) {
    var other := OtherSequencesSpec(w, h, mm, cfg.tolerance);
    var looping := LoopingPolicySpec(other, w, cfg.looping, cfg.tolerance);
    OutsidePolicySpec(looping.0, looping.1, h, cfg.outside)
  }

  /** The multimap and the world after preprocessing, and whether the run
      stopped early. */
  datatype Prepared = Prepared(mm: MultiMap, w: World, stopped: bool)

  /** The passes for one level sequence: the run stops when the first
      pass leaves the multimap empty. */
  function Stage(w: World, h: Host, cfg: Config, mm: MultiMap, sequence: Option<SequenceId>): Prepared {
    var requested := HandleRequestedSpec(w, h, mm, sequence, cfg.tolerance);
    if IsEmpty(requested) then Prepared(requested, w, true)
    else
      var next := AfterRequested(w, h, cfg, requested);
      Prepared(next.0, next.1, false)
  }

  /** The passes applied to each level sequence in turn until one stops
      the run. */
  function Chain(step: (World, MultiMap, Option<SequenceId>) -> Prepared, w: World, mm: MultiMap,
                 sequences: seq<Option<SequenceId>>): Prepared
    decreases |sequences|
  {
    if |sequences| == 0 then Prepared(mm, w, false)
    else
      var st := step(w, mm, sequences[0]);
      if st.stopped then st else Chain(step, st.w, st.mm, sequences[1..])
  }

  /** Stage as the step of the chain. */
  function StageStep(h: Host, cfg: Config): (World, MultiMap, Option<SequenceId>) -> Prepared {
    (w': World, mm': MultiMap, s: Option<SequenceId>) => Stage(w', h, cfg, mm', s)
  }

  function PreprocessSpec(w: World, h: Host, cfg: Config, mm: MultiMap, sequences: seq<Option<SequenceId>>): Prepared {
    Chain(StageStep(h, cfg), w, mm, sequences)
  }

  /** The world after a run: the main flow runs only when preprocessing did
      not stop. */
  function RunSpec(w: World, h: Host, cfg: Config, sequences: seq<Option<SequenceId>>): World {
    var p := PreprocessSpec(w, h, cfg, [], sequences);
    if p.stopped then p.w else MainFlowSpec(h, cfg, p.w, p.mm)
  }

  method RunLevelSequenceAudioTrimmer(w: World, h: Host, cfg: Config, sequences: seq<Option<SequenceId>>)
    returns (w': World)
    ensures w' == RunSpec(w, h, cfg, sequences)
  {
    var mm: MultiMap := [];
    w' := w;
    var i := 0;
    while i < |sequences|
      invariant 0 <= i <= |sequences|
      invariant PreprocessSpec(w, h, cfg, [], sequences) == PreprocessSpec(w', h, cfg, mm, sequences[i..])
    {
      assert sequences[i..][1..] == sequences[i + 1..];
      mm := HandleSoundsInRequestedLevelSequence(w', h, mm, sequences[i], cfg.tolerance);
      if IsEmpty(mm) {
        return w';
      }
      mm := HandleSoundsInOtherSequences(w', h, mm, cfg.tolerance);
      mm, w' := HandlePolicyLoopingSounds(mm, w', cfg.looping, cfg.tolerance);
      mm, w' := HandlePolicySoundsOutsideSequences(mm, w', h, cfg.outside);
      i := i + 1;
    }
    w' := ExecuteMainFlow(h, cfg, w', mm);
  }

  /** After a step that stops, later sequences are not looked at. */
  lemma {:induction false} ChainStopIgnoresLater(step: (World, MultiMap, Option<SequenceId>) -> Prepared, w: World,
                                                 mm: MultiMap, sequences: seq<Option<SequenceId>>,
                                                 later: seq<Option<SequenceId>>)
    requires Chain(step, w, mm, sequences).stopped
    ensures Chain(step, w, mm, sequences + later) == Chain(step, w, mm, sequences)
    decreases |sequences|
  {
    var all := sequences + later;
    assert all[0] == sequences[0];
    var st := step(w, mm, sequences[0]);
    if !st.stopped {
      assert all[1..] == sequences[1..] + later;
      ChainStopIgnoresLater(step, st.w, st.mm, sequences[1..], later);
    }
  }

  /** Once a level sequence leaves the multimap empty, the level sequences
      after it are not looked at. */
  lemma StopIgnoresLater(w: World, h: Host, cfg: Config, mm: MultiMap,
                         sequences: seq<Option<SequenceId>>, later: seq<Option<SequenceId>>)
    requires PreprocessSpec(w, h, cfg, mm, sequences).stopped
    ensures PreprocessSpec(w, h, cfg, mm, sequences + later) == PreprocessSpec(w, h, cfg, mm, sequences)
  {
    ChainStopIgnoresLater(StageStep(h, cfg), w, mm, sequences, later);
  }

  /** The passes for one level sequence make no export attempt and record
      nothing but duplications. */
  lemma StageOnlyDuplicated(w: World, h: Host, cfg: Config, mm: MultiMap, sequence: Option<SequenceId>)
    ensures OnlyDuplicated(w, Stage(w, h, cfg, mm, sequence).w)
  {
    var requested := HandleRequestedSpec(w, h, mm, sequence, cfg.tolerance);
    if !IsEmpty(requested) {
      var other := OtherSequencesSpec(w, h, requested, cfg.tolerance);
      var looping := LoopingPolicySpec(other, w, cfg.looping, cfg.tolerance);
      LoopingPolicyOnlyDuplicated(other, w, cfg.looping, cfg.tolerance);
      OutsidePolicyOnlyDuplicated(looping.0, looping.1, h, cfg.outside);
      OnlyDuplicatedTrans(w, looping.1, AfterRequested(w, h, cfg, requested).1);
    } else {
      assert w.trace[..|w.trace|] == w.trace;
    }
  }

  /** Preprocessing makes no export attempt and records nothing but
      duplications. */
  lemma {:induction false} PreprocessOnlyDuplicated(w: World, h: Host, cfg: Config, mm: MultiMap, sequences: seq<Option<SequenceId>>)
    ensures OnlyDuplicated(w, PreprocessSpec(w, h, cfg, mm, sequences).w)
    decreases |sequences|
  {
    if |sequences| > 0 {
      var st := Stage(w, h, cfg, mm, sequences[0]);
      StageOnlyDuplicated(w, h, cfg, mm, sequences[0]);
      if !st.stopped {
        PreprocessOnlyDuplicated(st.w, h, cfg, st.mm, sequences[1..]);
        OnlyDuplicatedTrans(w, st.w, PreprocessSpec(st.w, h, cfg, st.mm, sequences[1..]).w);
      }
    } else {
      assert w.trace[..|w.trace|] == w.trace;
    }
  }

  /** When the run stops early the main flow does not run: no sound wave is
      exported, trimmed or reimported and no section is reset. */
  lemma EarlyStopSkipsMainFlow(w: World, h: Host, cfg: Config, sequences: seq<Option<SequenceId>>)
    requires PreprocessSpec(w, h, cfg, [], sequences).stopped
    ensures OnlyDuplicated(w, RunSpec(w, h, cfg, sequences))
  {
    PreprocessOnlyDuplicated(w, h, cfg, [], sequences);
  }

  /** A first level sequence that is null or has no section playing a sound
      wave ends the run before anything happens. */
  lemma EmptyFirstSequenceChangesNothing(w: World, h: Host, cfg: Config, sequences: seq<Option<SequenceId>>)
    requires |sequences| > 0
    requires sequences[0].None? ||
      forall x :: x in AudioSectionsOf(h.tracksOf(sequences[0].value)) ==> SoundOf(w, x).None?
    ensures RunSpec(w, h, cfg, sequences) == w
  {
    HandleRequestedEmpty(w, h, [], sequences[0], cfg.tolerance);
  }
}
