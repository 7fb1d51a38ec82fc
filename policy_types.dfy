/** The policy enumerations and the settings the trimmer reads from its
    developer settings object. */
module PolicyTypes {
  import opened TrimTimes

  /** ELSATPolicyLoopingSounds. */
  datatype LoopingPolicy = SkipAll | SkipAndDuplicate

  /** ELSATPolicySoundsOutsideSequences: the two values the trimmer handles. */
  datatype OutsidePolicy = SkipAll | SkipAndDuplicate

  /** ELSATPolicyDifferentTrimTimes: the two values the trimmer handles. */
  datatype DifferentTrimTimesPolicy = SkipAll | ReimportOneAndDuplicateOthers

  /** MinDifferenceMs and the three policies. */
  datatype Config = Config(
    tolerance: Tolerance,
    looping: LoopingPolicy,
    outside: OutsidePolicy,
    different: DifferentTrimTimesPolicy)
}
