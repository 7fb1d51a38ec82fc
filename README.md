# Level Sequencer Audio Trimmer — a Dafny model

This project models the core of the Level Sequencer Audio Trimmer, an Unreal Engine editor plugin. For each level sequence, the plugin finds the audio sections that play a sound wave. It works out which window of each sound wave (start and end in milliseconds) the sections use. It then trims each sound wave to that window: export to WAV, trim, reimport. Finally it resets each audio section so that it plays the trimmed asset from its start.

The model covers these parts:

- **Trim times** (`FLSATTrimTimes`): the window type. Its equality buckets start and end by the tolerance `MinDifferenceMs`, and it has the looping and already-trimmed tests.
- **Sections container, trim-times map and multimap**: modelled as immutable sequences of pairs that are threaded through the operations.
- **The four preprocessing stages**:
  - sounds of the requested sequence;
  - the same sounds used in other sequences;
  - the policy for looping sounds;
  - the policy for sounds used outside level sequences.
- **The main flow**: one pass per window group. It duplicates the working sound wave when needed. It processes the first section of a group and reuses the result for the rest.
- **The top-level `RunLevelSequenceAudioTrimmer`**: it stops early when a sequence leaves the multimap empty.
- **The older types** in `LevelSequencerAudioTypes.cpp`: `FTrimTimes`, with tolerance equality but an exact hash, and its map.

The editor is modelled as an `Engine.World` value:

- a map from audio-section ids to section records (sound, start offset, length, looping flag, owning sequence);
- the id the next duplicated sound wave gets;
- a counter of export, trim and reimport attempts;
- a trace of the actions taken.

The engine's answers are oracles in `Engine.Host`: the tracks of each sequence, the usages of each sound, and the result of each attempt.

Each in-place update in the source becomes one of two things here. It is either a function from the old value to the new one, or a `method` with a loop that is proved equal to that function. The method's `ensures` is that equality. The properties the source promises are lemmas about the function.

## Model

| member | source | states |
|---|---|---|
| TrimTimes.InvalidIsNotValid | Source/LevelSequencerAudioTrimmer/Private/Data/LSATTrimTimesData.cpp:20 | The Invalid constant is not a valid window. |
| TrimTimes.TruncDivBounds | Source/LevelSequencerAudioTrimmer/Private/Data/LSATTrimTimesData.cpp:197-201 | C++ division truncates toward zero: the remainder has the dividend's sign and is smaller than the divisor. |
| TrimTimes.NotLoopingWithinDuration | Source/LevelSequencerAudioTrimmer/Private/Data/LSATTrimTimesData.cpp:69-74 | A window is looping exactly when it ends at least the tolerance past the sound's duration; so one that ends within the sound never loops. |
| TrimTimes.LoopingNearStartCountsAsTrimmed | Source/LevelSequencerAudioTrimmer/Private/Data/LSATTrimTimesData.cpp:107-113 | A looping window that starts within the tolerance of zero also passes the already-trimmed test. |
| TrimTimes.MaxTrimTimesWidens | Source/LevelSequencerAudioTrimmer/Private/Data/LSATTrimTimesData.cpp:155-162 | GetMaxTrimTimes takes the larger start and the larger end, each from one of the inputs, and the left sound. Swapping the inputs only swaps the sound. |
| TrimTimes.MaxTrimTimesIsNotUnion | Source/LevelSequencerAudioTrimmer/Private/Data/LSATTrimTimesData.cpp:148-162 | The left window lies within the merge exactly when its start is the larger one. |
| TrimTimes.MaxTrimTimesKeepsOrder | Source/LevelSequencerAudioTrimmer/Private/Data/LSATTrimTimesData.cpp:155-162 | Merging two windows with start <= end gives one with start <= end. |
| TrimTimes.KeyEqIsEquivalence | Source/LevelSequencerAudioTrimmer/Private/Data/LSATTrimTimesData.cpp:189-208 | Key equality (equal quantised hash triples) is reflexive, symmetric and transitive. |
| TrimTimes.MaxTrimTimesKeepsKey | Source/LevelSequencerAudioTrimmer/Private/Data/LSATTrimTimesData.cpp:155-208 | Merging two equal keys gives a key equal to both. |
| TrimTimes.KeyEqIsClose | Source/LevelSequencerAudioTrimmer/Private/Data/LSATTrimTimesData.cpp:189-208 | Two valid windows with equal keys have the same sound, and each bound differs by less than the tolerance. |
| TrimTimes.CloseButNotKeyEq | Source/LevelSequencerAudioTrimmer/Private/Data/LSATTrimTimesData.cpp:195-208 | Windows 1 ms apart can fall into different buckets. |
| TrimTimes.NegativeStartsShareBucketZero | Source/LevelSequencerAudioTrimmer/Private/Data/LSATTrimTimesData.cpp:195-208 | Truncation puts -1 and 49 into the same bucket of 50 ms, so the closeness bound needs valid windows. |
| DuplicateSound.LastNonDigit | Source/LevelSequencerAudioTrimmer/Private/LSATUtilsLibrary.cpp:418 | The last index whose character is not a digit, or -1; everything after it is digits. |
| DuplicateSound.NatToString | Source/LevelSequencerAudioTrimmer/Private/LSATUtilsLibrary.cpp:420 | The %d rendering is a non-empty run of digits whose value is the number. |
| DuplicateSound.IntToString | Source/LevelSequencerAudioTrimmer/Private/LSATUtilsLibrary.cpp:420 | The rendering of a negative number starts with a minus sign; that of any other number is its digits. |
| DuplicateSound.DuplicateNameDiffers | Source/LevelSequencerAudioTrimmer/Private/LSATUtilsLibrary.cpp:414-426 | For every non-zero index the generated name differs from the original, so the name guard never refuses the indices the trimmer uses. |
| DuplicateSound.DuplicateNameExamples | Source/LevelSequencerAudioTrimmer/Private/LSATUtilsLibrary.cpp:414-421 | The documented examples: SoundWave to SoundWave1, and SoundWave1 to SoundWave2. Index 0 gives back the same name. |
| DuplicateSound.DuplicateSoundWave | Source/LevelSequencerAudioTrimmer/Private/LSATUtilsLibrary.cpp:410-446 | A non-zero index always gives a duplicate: a fresh id, the generated name and the same duration. The duplicate is recorded in the trace; a refused duplicate changes nothing. |
| Arrays.AddUnique | Source/LevelSequencerAudioTrimmer/Private/Data/LSATTrimTimesData.cpp:228 | TArray::AddUnique: the element is present afterwards, the prefix is unchanged, the array grows only when the element was absent, and it stays duplicate-free. |
| Arrays.AddAllUnique | Source/LevelSequencerAudioTrimmer/Private/Data/LSATTrimTimesData.cpp:294-297 | Adding many elements uniquely gives the union of the two arrays, kept duplicate-free, with the prefix unchanged. |
| Engine.SectionAt | Source/LevelSequencerAudioTrimmer/Private/Data/LSATTrimTimesData.cpp:219-222 | A null or unknown section reference resolves to nothing; otherwise it resolves to that section's record. |
| Engine.SetSectionSound | Source/LevelSequencerAudioTrimmer/Private/Data/LSATTrimTimesData.cpp:219-222 | Only the named section's sound changes. |
| Engine.OnlyDuplicatedTrans | Source/LevelSequencerAudioTrimmer/Private/LSATUtilsLibrary.cpp:44-56 | Steps that only duplicate sound waves compose. |
| SectionsContainer.Add | Source/LevelSequencerAudioTrimmer/Private/Data/LSATTrimTimesData.cpp:226-229 | Always true; the section is added once, and nothing else changes. |
| SectionsContainer.AppendSpecContents | Source/LevelSequencerAudioTrimmer/Private/Data/LSATTrimTimesData.cpp:231-240 | Append keeps the old sections in place and adds each non-null section of the other container once. |
| SectionsContainer.Append | Source/LevelSequencerAudioTrimmer/Private/Data/LSATTrimTimesData.cpp:231-240 | The loop computes the append specification: the union with the non-null sections, duplicate-free. |
| SectionsContainer.SetSoundSpec | Source/LevelSequencerAudioTrimmer/Private/Data/LSATTrimTimesData.cpp:215-224 | Exactly the sections listed in the container take the sound; no section appears or disappears, and the counters and the trace stay. |
| SectionsContainer.SetSoundSpecConcat | Source/LevelSequencerAudioTrimmer/Private/Data/LSATTrimTimesData.cpp:215-224 | Setting the sound on two containers one after the other is setting it on their concatenation. |
| SectionsContainer.SetSound | Source/LevelSequencerAudioTrimmer/Private/Data/LSATTrimTimesData.cpp:215-224 | Every listed non-null section gets the sound, and every other section and counter is unchanged. |
| TrimMap.IndexOfKey | Source/LevelSequencerAudioTrimmer/Private/Data/LSATTrimTimesData.cpp:326 | The lookup finds the first key equal to the window, or reports that there is none. |
| TrimMap.Add | Source/LevelSequencerAudioTrimmer/Private/Data/LSATTrimTimesData.cpp:322-344 | The method computes the Add specification: merge into the equal key or append a new key. |
| TrimMap.AddRefuses | Source/LevelSequencerAudioTrimmer/Private/Data/LSATTrimTimesData.cpp:324-327 | Add returns true exactly for a non-null section with a valid window; when it refuses, the map is unchanged. |
| TrimMap.AddGrowsByAtMostOne | Source/LevelSequencerAudioTrimmer/Private/Data/LSATTrimTimesData.cpp:322-344 | The map grows by one exactly when the add succeeds and no equal key exists. |
| TrimMap.IndexOfKeyAt | Source/LevelSequencerAudioTrimmer/Private/Data/LSATTrimTimesData.cpp:326 | The first matching position is the lookup's result. |
| TrimMap.AddStoresSection | Source/LevelSequencerAudioTrimmer/Private/Data/LSATTrimTimesData.cpp:328-343 | After a successful add, the key equal to the window holds the section, has the window's sound and bounds within one tolerance above the window's, and the other entries are unchanged. |
| TrimMap.AddIdempotent | Source/LevelSequencerAudioTrimmer/Private/Data/LSATTrimTimesData.cpp:322-344 | Adding the same section and window twice is the same as adding them once. |
| TrimMap.AddKeepsInvariant | Source/LevelSequencerAudioTrimmer/Private/Data/LSATTrimTimesData.cpp:322-344 | Add keeps keys pairwise unequal and all keys valid. |
| TrimMap.AddKeepsDistinct | Source/LevelSequencerAudioTrimmer/Private/Data/LSATTrimTimesData.cpp:322-344 | Add keeps keys pairwise unequal. |
| TrimMap.AddKeepsValid | Source/LevelSequencerAudioTrimmer/Private/Data/LSATTrimTimesData.cpp:322-344 | Add keeps every key valid, since it refuses an invalid window. |
| TrimMap.PutAbsent | Source/LevelSequencerAudioTrimmer/Private/Data/LSATTrimTimesData.cpp:351-354 | TMap::Add of a key not yet present appends it. |
| TrimMap.PutStores | Source/LevelSequencerAudioTrimmer/Private/Data/LSATTrimTimesData.cpp:351-354 | TMap::Add sets the key's value, replacing an equal key, and leaves the other entries unchanged. |
| TrimMap.PutKeepsDistinct | Source/LevelSequencerAudioTrimmer/Private/Data/LSATTrimTimesData.cpp:351-354 | TMap::Add keeps keys pairwise unequal. |
| TrimMap.RemoveKey | Source/LevelSequencerAudioTrimmer/Private/Data/LSATTrimTimesData.cpp:310-313 | Removing a key never grows the map. |
| TrimMap.RemoveKeyContents | Source/LevelSequencerAudioTrimmer/Private/Data/LSATTrimTimesData.cpp:310-313 | Exactly the entries whose key differs from the removed one remain; removing an absent key changes nothing. |
| TrimMap.RemoveKeyAt | Source/LevelSequencerAudioTrimmer/Private/Data/LSATTrimTimesData.cpp:310-313 | With distinct keys, removal deletes just the one position the lookup finds. |
| TrimMap.RemoveKeyKeepsInvariant | Source/LevelSequencerAudioTrimmer/Private/Data/LSATTrimTimesData.cpp:310-313 | Removal keeps keys distinct and valid. |
| TrimMap.RemoveKeyKeepsDistinct | Source/LevelSequencerAudioTrimmer/Private/Data/LSATTrimTimesData.cpp:310-313 | Removal keeps keys pairwise unequal. |
| TrimMap.Insert | Source/LevelSequencerAudioTrimmer/Private/Data/LSATTrimTimesData.cpp:366-373 | Insertion adds exactly the one entry: the result is the old entries plus it, as a multiset. |
| TrimMap.InsertSorted | Source/LevelSequencerAudioTrimmer/Private/Data/LSATTrimTimesData.cpp:366-373 | Inserting into an array sorted by start, then end, keeps it sorted. |
| TrimMap.SortEntries | Source/LevelSequencerAudioTrimmer/Private/Data/LSATTrimTimesData.cpp:366-373 | The sort is a permutation of its input and sorted by start, then end. |
| TrimMap.InsertKeepsDistinct | Source/LevelSequencerAudioTrimmer/Private/Data/LSATTrimTimesData.cpp:366-373 | Inserting a key unequal to all others keeps keys distinct. |
| TrimMap.SortEntriesKeepsDistinct | Source/LevelSequencerAudioTrimmer/Private/Data/LSATTrimTimesData.cpp:366-373 | Sorting keeps keys distinct. |
| TrimMap.RefillDistinct | Source/LevelSequencerAudioTrimmer/Private/Data/LSATTrimTimesData.cpp:375-380 | Re-adding distinct entries one by one into an empty map rebuilds exactly that array. |
| TrimMap.SortedKeysContents | Source/LevelSequencerAudioTrimmer/Private/Data/LSATTrimTimesData.cpp:356-381 | SortKeys leaves a sorted permutation of the same key-to-sections pairs, with keys still distinct. |
| TrimMap.SortKeys | Source/LevelSequencerAudioTrimmer/Private/Data/LSATTrimTimesData.cpp:356-381 | The copy loop, the sort and the refill loop compute the sorted map. |
| TrimMap.FirstNonNull | Source/LevelSequencerAudioTrimmer/Private/Data/LSATTrimTimesData.cpp:255-263 | The first non-null section of a container, or null when all are null. |
| TrimMap.GetFirstAudioSection | Source/LevelSequencerAudioTrimmer/Private/Data/LSATTrimTimesData.cpp:247-264 | The result is null for an empty map or container; otherwise it is the first non-null section of the first container, and it is found whenever that container holds one. |
| TrimMap.WithSound | Source/LevelSequencerAudioTrimmer/Private/Data/LSATTrimTimesData.cpp:267-274 | Every key's sound is replaced, and the sections are kept. |
| TrimMap.WithSoundKeepsDistinct | Source/LevelSequencerAudioTrimmer/Private/Data/LSATTrimTimesData.cpp:267-274 | Replacing the sound of keys that share one sound keeps them distinct. |
| TrimMap.SetSound | Source/LevelSequencerAudioTrimmer/Private/Data/LSATTrimTimesData.cpp:267-274 | Sets the sound on every key and on every section of the map. |
| Rebuild.AddUniqueKey | Source/LevelSequencerAudioTrimmer/Private/Data/LSATTrimTimesData.cpp:302 | The removal list afterwards holds the key, and exactly the keys it held before plus those equal to the new one. |
| Rebuild.RebuildTrimTimesMapWithProcessor | Source/LevelSequencerAudioTrimmer/Private/Data/LSATTrimTimesData.cpp:277-320 | The collection loop, the removal loop, the recalculation and the sort compute the rebuild specification. |
| Rebuild.ProcessKeySections | Source/LevelSequencerAudioTrimmer/Private/Data/LSATTrimTimesData.cpp:294-297 | The inner loop adds the processor's sections for every section of one key uniquely to the new-sections list. |
| Rebuild.RemoveKeys | Source/LevelSequencerAudioTrimmer/Private/Data/LSATTrimTimesData.cpp:310-313 | The removal loop removes every marked key in turn. |
| Rebuild.ProcessSectionsNothing | Source/LevelSequencerAudioTrimmer/Private/Data/LSATTrimTimesData.cpp:294-297 | A processor that adds nothing for any section leaves the new-sections list as it was. |
| Rebuild.RebuildWithoutNewSections | Source/LevelSequencerAudioTrimmer/Private/Data/LSATTrimTimesData.cpp:306-319 | When the processor adds nothing for the sections of valid keys, nothing is marked and the map is unchanged. |
| Rebuild.CollectMarksExactly | Source/LevelSequencerAudioTrimmer/Private/Data/LSATTrimTimesData.cpp:282-304 | A key is marked for removal exactly when processing its sections made the new-sections list grow; every marked key is a key of the map. |
| Rebuild.CollectMarksOnlyKeys | Source/LevelSequencerAudioTrimmer/Private/Data/LSATTrimTimesData.cpp:282-304 | Every marked key equals a key of the map. |
| Rebuild.CollectMarksGrewAt | Source/LevelSequencerAudioTrimmer/Private/Data/LSATTrimTimesData.cpp:282-304 | With distinct keys, the key at a position is marked exactly when processing its sections made the new-sections list grow. |
| Rebuild.CollectMarksGrew | Source/LevelSequencerAudioTrimmer/Private/Data/LSATTrimTimesData.cpp:282-304 | The same for every position. |
| Rebuild.RemoveKeysContents | Source/LevelSequencerAudioTrimmer/Private/Data/LSATTrimTimesData.cpp:310-313 | Exactly the entries whose key was not marked remain. |
| Rebuild.RemoveKeysKeepsInvariant | Source/LevelSequencerAudioTrimmer/Private/Data/LSATTrimTimesData.cpp:310-313 | Removal keeps keys distinct and valid. |
| Rebuild.RebuildContents | Source/LevelSequencerAudioTrimmer/Private/Data/LSATTrimTimesData.cpp:277-320 | An entry survives the removal exactly when its sections added nothing. The rebuilt map keeps keys distinct and valid, and a map that changed is sorted. |
| Rebuild.RebuildKeeps | Source/LevelSequencerAudioTrimmer/Private/Data/LSATTrimTimesData.cpp:282-313 | An entry survives the removal step exactly when its sections added nothing, and nothing else appears. |
| Rebuild.RebuildKeepsInvariant | Source/LevelSequencerAudioTrimmer/Private/Data/LSATTrimTimesData.cpp:277-320 | The rebuilt map keeps keys distinct and valid, and is sorted by start and end whenever it differs from the input. |
| TrimTimesMultiMap.Num | Source/LevelSequencerAudioTrimmer/Public/Data/LSATTrimTimesData.h:126 | Zero exactly for the empty multimap. |
| TrimTimesMultiMap.IsEmpty | Source/LevelSequencerAudioTrimmer/Public/Data/LSATTrimTimesData.h:127 | Empty exactly when Num is zero. |
| TrimTimesMultiMap.IndexOfSound | Source/LevelSequencerAudioTrimmer/Public/Data/LSATTrimTimesData.h:128 | The position of the sound's entry, or the map's size when there is none. |
| TrimTimesMultiMap.FindOrAdd | Source/LevelSequencerAudioTrimmer/Public/Data/LSATTrimTimesData.h:128 | Returns the sound's existing map unchanged, or appends an empty one for a new sound; the sounds stay distinct. |
| TrimTimesMultiMap.SetTimes | Source/LevelSequencerAudioTrimmer/Public/Data/LSATTrimTimesData.h:128 | After writing through the FindOrAdd reference, the sound's entry holds the new map; the multimap grows only for a sound it lacked. |
| TrimTimesMultiMap.SetTimesKeeps | Source/LevelSequencerAudioTrimmer/Public/Data/LSATTrimTimesData.h:128 | The write-back leaves the entries of every other sound unchanged. |
| TrimTimesMultiMap.SetTimesSoundsAt | Source/LevelSequencerAudioTrimmer/Public/Data/LSATTrimTimesData.h:128 | Every position keeps its sound, and a new last position holds the written sound. |
| TrimTimesMultiMap.SetTimesDistinct | Source/LevelSequencerAudioTrimmer/Public/Data/LSATTrimTimesData.h:128 | The write-back keeps one entry per sound. |
| TrimTimesMultiMap.SetTimesLookup | Source/LevelSequencerAudioTrimmer/Public/Data/LSATTrimTimesData.h:128 | After the write-back, FindOrAdd finds the written map under the written sound and the old map under every other sound. |
| TrimTimesMultiMap.SetTimesSounds | Source/LevelSequencerAudioTrimmer/Public/Data/LSATTrimTimesData.h:128 | The sounds present afterwards are the old ones plus the written one. |
| TrimTimesMultiMap.AppendedSound | Source/LevelSequencerAudioTrimmer/Public/Data/LSATTrimTimesData.h:128 | For a sound not yet present, FindOrAdd and the write-back act on the appended last entry. |
| TrimTimesMultiMap.IndexOfSoundAt | Source/LevelSequencerAudioTrimmer/Public/Data/LSATTrimTimesData.h:128 | The first position holding the sound is the lookup's result. |
| TrimTimesMultiMap.RemoveSound | Source/LevelSequencerAudioTrimmer/Public/Data/LSATTrimTimesData.h:130 | Removing one sound never grows the multimap. |
| TrimTimesMultiMap.RemoveSoundConcat | Source/LevelSequencerAudioTrimmer/Public/Data/LSATTrimTimesData.h:130 | Removal distributes over concatenation. |
| TrimTimesMultiMap.RemoveSoundContents | Source/LevelSequencerAudioTrimmer/Public/Data/LSATTrimTimesData.h:130 | Exactly the entries of other sounds remain; removing an absent sound changes nothing; the sounds stay distinct. |
| TrimTimesMultiMap.RemoveSoundMembers | Source/LevelSequencerAudioTrimmer/Public/Data/LSATTrimTimesData.h:130 | Exactly the entries of other sounds remain. |
| TrimTimesMultiMap.RemoveSoundAbsent | Source/LevelSequencerAudioTrimmer/Public/Data/LSATTrimTimesData.h:130 | Removing a sound that is not present changes nothing. |
| TrimTimesMultiMap.RemoveSoundDistinct | Source/LevelSequencerAudioTrimmer/Public/Data/LSATTrimTimesData.h:130 | Removal keeps the sounds distinct. |
| TrimTimesMultiMap.RemoveAllContents | Source/LevelSequencerAudioTrimmer/Private/Data/LSATTrimTimesData.cpp:416-422 | Exactly the entries whose sound is not listed remain, and they stay distinct. |
| TrimTimesMultiMap.RemoveAllMembers | Source/LevelSequencerAudioTrimmer/Private/Data/LSATTrimTimesData.cpp:416-422 | Exactly the entries whose sound is not listed remain. |
| TrimTimesMultiMap.RemoveAllDistinct | Source/LevelSequencerAudioTrimmer/Private/Data/LSATTrimTimesData.cpp:416-422 | Removing the listed sounds keeps the sounds distinct. |
| TrimTimesMultiMap.Remove | Source/LevelSequencerAudioTrimmer/Private/Data/LSATTrimTimesData.cpp:416-422 | The loop removes every listed sound and keeps every other entry. |
| TrimTimesMultiMap.SoundsWhereContents | Source/LevelSequencerAudioTrimmer/Private/Data/LSATTrimTimesData.cpp:388-414 | The result holds each sound once, and exactly the sounds that have a window satisfying the predicate. |
| TrimTimesMultiMap.GetSounds | Source/LevelSequencerAudioTrimmer/Private/Data/LSATTrimTimesData.cpp:388-414 | The loop empties the output, then collects exactly the sounds with a matching window, each once. |
| AudioSections.CalculateTrimTimesInSection | Source/LevelSequencerAudioTrimmer/Private/LSATUtilsLibrary.cpp:682-689 | The window is valid exactly when the section exists, belongs to a sequence, has a sound and has non-negative bounds. A valid window starts at the section's start offset and is as long as the section. |
| AudioSections.CalculateTrimTimesInAllSections | Source/LevelSequencerAudioTrimmer/Private/LSATUtilsLibrary.cpp:664-679 | The loop adds each non-null section with a valid window to the map. |
| AudioSections.AddKeepsSections | Source/LevelSequencerAudioTrimmer/Private/Data/LSATTrimTimesData.cpp:322-344 | No section already in the map is lost by an add. |
| AudioSections.CalcAllContents | Source/LevelSequencerAudioTrimmer/Private/LSATUtilsLibrary.cpp:664-679 | The result keeps the map's invariant and its old sections, and it holds every section whose window is valid. |
| AudioSections.IndexOfGroup | Source/LevelSequencerAudioTrimmer/Private/LSATUtilsLibrary.cpp:622-627 | The position of the first group of the sound. |
| AudioSections.AddToGroupContents | Source/LevelSequencerAudioTrimmer/Private/LSATUtilsLibrary.cpp:622-627 | Adding a section to its sound's group keeps one group per sound, each group non-empty and holding sections of its own sound. The section is grouped afterwards. |
| AudioSections.AddToGroupDistinct | Source/LevelSequencerAudioTrimmer/Private/LSATUtilsLibrary.cpp:622-627 | Adding a section keeps one group per sound. |
| AudioSections.AddToGroupFaithful | Source/LevelSequencerAudioTrimmer/Private/LSATUtilsLibrary.cpp:622-627 | Adding a section under its own sound keeps every group non-empty, duplicate-free and holding sections of its sound. |
| AudioSections.AddToGroupGrouped | Source/LevelSequencerAudioTrimmer/Private/LSATUtilsLibrary.cpp:622-627 | The sections grouped afterwards are the old ones plus the new one. |
| AudioSections.GroupSpecContents | Source/LevelSequencerAudioTrimmer/Private/LSATUtilsLibrary.cpp:599-630 | The grouping has one group per sound, each non-empty and duplicate-free. The sections grouped are exactly the listed sections that have a sound. |
| AudioSections.FindAudioSectionsInLevelSequence | Source/LevelSequencerAudioTrimmer/Private/LSATUtilsLibrary.cpp:599-630 | A null level sequence leaves the caller's map as it was. Otherwise the map is emptied, and the loops over tracks and sections compute the grouping of the sequence's audio sections. |
| Preprocessing.HandleSoundsInRequestedLevelSequence | Source/LevelSequencerAudioTrimmer/Private/LSATUtilsLibrary.cpp:193-221 | The loop merges, for each sound, the windows of its sections into that sound's map. |
| Preprocessing.HandleRequestedCovers | Source/LevelSequencerAudioTrimmer/Private/LSATUtilsLibrary.cpp:193-221 | Every section on an audio track of the requested sequence whose window is valid has a sound and ends up in some entry of that sound's map. Nothing listed under a sound before is lost, and every sound's map keeps distinct, valid keys. |
| Preprocessing.MergeGroupsCovers | Source/LevelSequencerAudioTrimmer/Private/LSATUtilsLibrary.cpp:212-220 | Every section of every group whose window is valid ends up in the map of its group's sound. Earlier entries are kept, and the maps keep distinct, valid keys. |
| Preprocessing.MergeGroupCovers | Source/LevelSequencerAudioTrimmer/Private/LSATUtilsLibrary.cpp:212-220 | The same for one group, found or added with FindOrAdd. |
| Preprocessing.SetTimesMapsValid | Source/LevelSequencerAudioTrimmer/Private/LSATUtilsLibrary.cpp:212-220 | Writing back a map with distinct, valid keys keeps every sound's map so. |
| Preprocessing.FoundValid | Source/LevelSequencerAudioTrimmer/Private/LSATUtilsLibrary.cpp:214 | The map FindOrAdd returns has distinct, valid keys. |
| Preprocessing.MergeGroupsContents | Source/LevelSequencerAudioTrimmer/Private/LSATUtilsLibrary.cpp:193-221 | The sounds stay distinct and the multimap never shrinks. The sounds present afterwards are the old ones plus those of the groups, and entries of other sounds are unchanged. |
| Preprocessing.MergeGroupContents | Source/LevelSequencerAudioTrimmer/Private/LSATUtilsLibrary.cpp:212-220 | The same for one group. |
| Preprocessing.GroupOfLast | Source/LevelSequencerAudioTrimmer/Private/LSATUtilsLibrary.cpp:212-220 | The groups of a longer list are those of its prefix plus the last group. |
| Preprocessing.HandleRequestedEmpty | Source/LevelSequencerAudioTrimmer/Private/LSATUtilsLibrary.cpp:193-221 | The multimap is empty after the stage exactly when it was empty before and the sequence is null or none of its audio sections has a sound. |
| Preprocessing.OtherSequencesSpec | Source/LevelSequencerAudioTrimmer/Private/LSATUtilsLibrary.cpp:224-267 | The stage keeps every sound and the order of the sounds. |
| Preprocessing.HandleSoundsInOtherSequences | Source/LevelSequencerAudioTrimmer/Private/LSATUtilsLibrary.cpp:224-267 | The nested loops over sounds and usages compute the stage's specification. |
| Preprocessing.AddOtherUsages | Source/LevelSequencerAudioTrimmer/Private/LSATUtilsLibrary.cpp:245-265 | The loop over the usages of one sound computes the sound's map with the windows from its other level sequences. |
| Preprocessing.OtherUsagesKeeps | Source/LevelSequencerAudioTrimmer/Private/LSATUtilsLibrary.cpp:245-265 | Using other sequences keeps the map's invariant and loses no section. |
| Preprocessing.UsageStepCovers | Source/LevelSequencerAudioTrimmer/Private/LSATUtilsLibrary.cpp:252-263 | One other level sequence: the map keeps its invariant and its sections. It gains every section of the sound on that sequence's audio tracks whose window is valid. |
| Preprocessing.OtherUsagesCovers | Source/LevelSequencerAudioTrimmer/Private/LSATUtilsLibrary.cpp:245-265 | Over all usages: every valid section of the sound in a level sequence other than the original one ends up in the map, and nothing listed before is lost. |
| Preprocessing.OtherSequencesEntryCovers | Source/LevelSequencerAudioTrimmer/Private/LSATUtilsLibrary.cpp:232-265 | One multimap entry: when its first section has a level sequence, the entry's map gains every valid section of its sound in the other level sequences that use it. It keeps what it held. |
| Preprocessing.OtherSequencesCovers | Source/LevelSequencerAudioTrimmer/Private/LSATUtilsLibrary.cpp:224-267 | The same for every entry of the multimap. |
| Preprocessing.OtherUsagesNone | Source/LevelSequencerAudioTrimmer/Private/LSATUtilsLibrary.cpp:245-252 | A sound used in no other level sequence keeps its map. |
| LoopingSounds.SkipAllContents | Source/LevelSequencerAudioTrimmer/Private/LSATUtilsLibrary.cpp:282-285 | Under SkipAll, exactly the sounds with no looping window remain, so no looping window is left. |
| LoopingSounds.NonLoopingContents | Source/LevelSequencerAudioTrimmer/Private/LSATUtilsLibrary.cpp:305-311 | The windows that get moved are exactly the non-looping ones; there are none exactly when all windows loop. |
| LoopingSounds.NonLoopingMembers | Source/LevelSequencerAudioTrimmer/Private/LSATUtilsLibrary.cpp:305-311 | The windows moved are exactly the non-looping ones. |
| LoopingSounds.NonLoopingEmpty | Source/LevelSequencerAudioTrimmer/Private/LSATUtilsLibrary.cpp:305-311 | None are moved exactly when every window loops. |
| LoopingSounds.NonLoopingDistinct | Source/LevelSequencerAudioTrimmer/Private/LSATUtilsLibrary.cpp:305-311 | Distinct keys stay distinct among the moved windows. |
| LoopingSounds.HandlePolicyLoopingSounds | Source/LevelSequencerAudioTrimmer/Private/LSATUtilsLibrary.cpp:270-338 | The loops compute the looping policy's specification. |
| LoopingSounds.DuplicateLoopingSounds | Source/LevelSequencerAudioTrimmer/Private/LSATUtilsLibrary.cpp:297-332 | The loop over the looping sounds computes SkipAndDuplicate for all of them in order. |
| LoopingSounds.DuplicateLoopingSound | Source/LevelSequencerAudioTrimmer/Private/LSATUtilsLibrary.cpp:299-331 | The loop over one looping sound's windows computes that sound's step: moved windows, the duplicate and the removal of the original. |
| LoopingSounds.MoveStepMoved | Source/LevelSequencerAudioTrimmer/Private/LSATUtilsLibrary.cpp:313-323 | Moving one non-looping window extends the duplicate's map by it. |
| LoopingSounds.NonLoopingLastFree | Source/LevelSequencerAudioTrimmer/Private/LSATUtilsLibrary.cpp:302-324 | With distinct keys, a window is not yet in the moved prefix. |
| LoopingSounds.MoveAllClosed | Source/LevelSequencerAudioTrimmer/Private/LSATUtilsLibrary.cpp:302-324 | Moving all windows makes one duplicate. It gets exactly the non-looping windows in order, and their sections play it. |
| LoopingSounds.LoopingSoundStepContents | Source/LevelSequencerAudioTrimmer/Private/LSATUtilsLibrary.cpp:299-331 | A sound whose windows all loop is kept, or removed when its map is empty, and nothing is duplicated. Otherwise it is replaced by a fresh duplicate named with index 1 that holds the non-looping windows, and those sections play the duplicate. |
| LoopingSounds.LoopingSoundKept | Source/LevelSequencerAudioTrimmer/Private/LSATUtilsLibrary.cpp:326-331 | The original sound stays exactly when it was present with a non-empty map whose windows all loop. |
| LoopingSounds.RemoveSoundWellFormed | Source/LevelSequencerAudioTrimmer/Public/Data/LSATTrimTimesData.h:130 | Removing a sound keeps the multimap well-formed, and it keeps the other entries. |
| LoopingSounds.AppendFreshWellFormed | Source/LevelSequencerAudioTrimmer/Private/LSATUtilsLibrary.cpp:313-323 | Appending a duplicate with a fresh id keeps the multimap well-formed. |
| LoopingSounds.LoopingSoundStepWellFormed | Source/LevelSequencerAudioTrimmer/Private/LSATUtilsLibrary.cpp:299-331 | One sound's step keeps the multimap well-formed and makes at most one duplicate. Entries of other sounds remain. |
| LoopingSounds.DuplicateAllContents | Source/LevelSequencerAudioTrimmer/Private/LSATUtilsLibrary.cpp:297-332 | SkipAndDuplicate keeps the multimap well-formed and makes at most one duplicate per looping sound. Entries of other sounds remain. |
| LoopingSounds.LoopingPolicyWellFormed | Source/LevelSequencerAudioTrimmer/Private/LSATUtilsLibrary.cpp:270-338 | Both policies keep the multimap well-formed. SkipAll also leaves the editor untouched and no looping window. |
| LoopingSounds.MoveAllOnlyDuplicated | Source/LevelSequencerAudioTrimmer/Private/LSATUtilsLibrary.cpp:302-324 | Moving windows only duplicates sound waves: no export, trim or reimport. |
| LoopingSounds.MoveStepOnlyDuplicated | Source/LevelSequencerAudioTrimmer/Private/LSATUtilsLibrary.cpp:313-323 | Moving one window records at most a duplication. |
| LoopingSounds.DuplicateAllOnlyDuplicated | Source/LevelSequencerAudioTrimmer/Private/LSATUtilsLibrary.cpp:297-332 | The same for all looping sounds. |
| LoopingSounds.LoopingPolicyOnlyDuplicated | Source/LevelSequencerAudioTrimmer/Private/LSATUtilsLibrary.cpp:270-338 | The same for the whole stage. |
| OutsideSounds.FlaggedContents | Source/LevelSequencerAudioTrimmer/Private/LSATUtilsLibrary.cpp:344-363 | The flagged sounds are exactly the sounds in the multimap that have a usage outside every level sequence. |
| OutsideSounds.HasExternalUsages | Source/LevelSequencerAudioTrimmer/Private/LSATUtilsLibrary.cpp:353-356 | The scan answers whether some usage is not a level sequence. |
| OutsideSounds.DuplicateEntryContents | Source/LevelSequencerAudioTrimmer/Private/LSATUtilsLibrary.cpp:388-397 | An unflagged entry is untouched. A flagged entry is renamed to a fresh duplicate, which consumes one id. |
| OutsideSounds.HandlePolicySoundsOutsideSequences | Source/LevelSequencerAudioTrimmer/Private/LSATUtilsLibrary.cpp:342-404 | The loops compute the outside policy's specification. |
| OutsideSounds.FlagSoundsOutsideSequences | Source/LevelSequencerAudioTrimmer/Private/LSATUtilsLibrary.cpp:344-363 | The flagging loop computes the list of sounds with a usage outside level sequences. |
| OutsideSounds.DuplicateFlagged | Source/LevelSequencerAudioTrimmer/Private/LSATUtilsLibrary.cpp:386-398 | The duplication loop computes SkipAndDuplicate over the multimap in order. |
| OutsideSounds.DuplicateFlaggedContents | Source/LevelSequencerAudioTrimmer/Private/LSATUtilsLibrary.cpp:386-398 | The size is kept and unflagged entries are unchanged. Each flagged entry becomes the same windows and sections under a duplicate with a fresh id. |
| OutsideSounds.DuplicateFlaggedShape | Source/LevelSequencerAudioTrimmer/Private/LSATUtilsLibrary.cpp:386-398 | The size is kept and the fresh-id counter never goes down. |
| OutsideSounds.DuplicateFlaggedNextGrows | Source/LevelSequencerAudioTrimmer/Private/LSATUtilsLibrary.cpp:386-398 | The counter after a prefix of the multimap is at most the counter after all of it. |
| OutsideSounds.DuplicateFlaggedKeeps | Source/LevelSequencerAudioTrimmer/Private/LSATUtilsLibrary.cpp:386-398 | An entry whose sound is not flagged stays as it is. |
| OutsideSounds.DuplicateFlaggedRenames | Source/LevelSequencerAudioTrimmer/Private/LSATUtilsLibrary.cpp:386-398 | A flagged entry becomes the same windows and sections under a duplicate whose id is fresh for the stage. |
| OutsideSounds.DuplicateFlaggedDistinct | Source/LevelSequencerAudioTrimmer/Private/LSATUtilsLibrary.cpp:386-398 | The duplicates keep the sounds distinct and the ids below the next fresh one. |
| OutsideSounds.DuplicateFlaggedWellFormed | Source/LevelSequencerAudioTrimmer/Private/LSATUtilsLibrary.cpp:386-398 | SkipAndDuplicate keeps the multimap well-formed when each flagged map's keys share one sound. |
| OutsideSounds.OutsidePolicyContents | Source/LevelSequencerAudioTrimmer/Private/LSATUtilsLibrary.cpp:342-404 | SkipAll keeps exactly the entries of sounds without an external usage and changes nothing else. SkipAndDuplicate keeps the size and the other entries, and moves each externally used sound's windows to a fresh duplicate. The section records are stated by OutsidePolicyRecords. |
| OutsideSounds.LastFlaggedOwner | Source/LevelSequencerAudioTrimmer/Private/LSATUtilsLibrary.cpp:386-397 | Returns -1 or the position of a flagged entry that lists the section. No later flagged entry lists it, so this is the last entry whose loop step retargets that section. |
| OutsideSounds.DuplicateFlaggedRecords | Source/LevelSequencerAudioTrimmer/Private/LSATUtilsLibrary.cpp:386-398 | No section record is added or removed. A section listed by a flagged entry plays the duplicate of the last such entry, and the rest of its record is kept. A section listed by no flagged entry keeps its record. |
| OutsideSounds.DuplicateFlaggedKeys | Source/LevelSequencerAudioTrimmer/Private/LSATUtilsLibrary.cpp:386-398 | The duplication loop adds and removes no section record. |
| OutsideSounds.OutsidePolicyRecords | Source/LevelSequencerAudioTrimmer/Private/LSATUtilsLibrary.cpp:342-404 | SkipAll leaves the world unchanged. SkipAndDuplicate keeps the set of sections. A section of an externally used sound's entry plays that entry's duplicate when no later such entry lists it. A section listed by no such entry keeps its record. |
| OutsideSounds.DuplicateFlaggedOnlyDuplicated | Source/LevelSequencerAudioTrimmer/Private/LSATUtilsLibrary.cpp:386-398 | The stage only duplicates sound waves. |
| OutsideSounds.OutsidePolicyOnlyDuplicated | Source/LevelSequencerAudioTrimmer/Private/LSATUtilsLibrary.cpp:342-404 | The same for both policies. |
| MainFlow.ResetTrimmedAudioSection | Source/LevelSequencerAudioTrimmer/Private/LSATUtilsLibrary.cpp:553-575 | A null section or sound changes nothing. Otherwise only that section changes: it plays the new sound from offset 0, not looping, with the same length and owner. |
| MainFlow.ResetIdempotent | Source/LevelSequencerAudioTrimmer/Private/LSATUtilsLibrary.cpp:553-575 | Resetting twice is resetting once. |
| MainFlow.ProcessSections | Source/LevelSequencerAudioTrimmer/Private/LSATUtilsLibrary.cpp:126-180 | The section loop computes the section-level specification. |
| MainFlow.SectionsTrace | Source/LevelSequencerAudioTrimmer/Private/LSATUtilsLibrary.cpp:126-180 | Each section leaves one action in the trace, on the group's trimmed sound; an attempt trims to the group's window. A section is reused exactly when an earlier one succeeded, at most one section succeeds, and the group reports reuse exactly when one did. |
| MainFlow.SectionStepRecord | Source/LevelSequencerAudioTrimmer/Private/LSATUtilsLibrary.cpp:130-139 | One section step resets the record of its own section when the group holds a trimmed sound after the step. It leaves every other record, and a failed attempt's record, as they were. |
| MainFlow.TouchedSnoc | Source/LevelSequencerAudioTrimmer/Private/LSATUtilsLibrary.cpp:126-180 | A section sits at or after the first success after one more step exactly when it did before, or it is the new one and a success has happened. Sitting after a success needs an earlier success. |
| MainFlow.SectionsRecord | Source/LevelSequencerAudioTrimmer/Private/LSATUtilsLibrary.cpp:130-171 | After a group, a section at or after the first successful attempt plays the trimmed sound from offset 0, not looping, with the same length and owner. A section that sits only before it, including each failed attempt, keeps its record. |
| MainFlow.SectionsTraceShape | Source/LevelSequencerAudioTrimmer/Private/LSATUtilsLibrary.cpp:126-180 | A group appends one action per section and changes neither which sections exist nor the fresh-id counter. |
| MainFlow.SectionsTraceSectionAt | Source/LevelSequencerAudioTrimmer/Private/LSATUtilsLibrary.cpp:126-180 | The action at each position of the group belongs to the section at that position, is no duplication and is on the group's sound. An attempt trims to the group's window. |
| MainFlow.SectionsTraceFlag | Source/LevelSequencerAudioTrimmer/Private/LSATUtilsLibrary.cpp:126-180 | The reuse flag is set exactly when an attempt of the group succeeded. |
| MainFlow.SectionsTraceReusedAt | Source/LevelSequencerAudioTrimmer/Private/LSATUtilsLibrary.cpp:130-139 | A section is reused exactly when an earlier section of the group succeeded. |
| MainFlow.SectionsTraceOnce | Source/LevelSequencerAudioTrimmer/Private/LSATUtilsLibrary.cpp:126-180 | At most one attempt of a group succeeds. |
| MainFlow.ProcessGroups | Source/LevelSequencerAudioTrimmer/Private/LSATUtilsLibrary.cpp:93-182 | The group loop of one sound computes the sound-level specification, including the SkipAll early skip. |
| MainFlow.ProcessGroup | Source/LevelSequencerAudioTrimmer/Private/LSATUtilsLibrary.cpp:107-181 | The body of the window loop computes one group step. |
| MainFlow.WorkingSound | Source/LevelSequencerAudioTrimmer/Private/LSATUtilsLibrary.cpp:111-125 | The working sound is TrimmedSound. It duplicates exactly when the group is before the last under ReimportOneAndDuplicateOthers: the fresh id is taken and the duplication is recorded. Otherwise the world is unchanged. |
| MainFlow.GroupStepWorks | Source/LevelSequencerAudioTrimmer/Private/LSATUtilsLibrary.cpp:111-179 | A processed window advances GroupIndex and starts with the duplication when it duplicates. Then comes one action per section, each on TrimmedSound. Every section record either stays or is reset to play TrimmedSound. |
| MainFlow.GroupsTrimmedSound | Source/LevelSequencerAudioTrimmer/Private/LSATUtilsLibrary.cpp:106-181 | The window at position i is group n, n being the untrimmed windows before it. Before the last group under ReimportOneAndDuplicateOthers it is trimmed into the fresh sound wave numbered first-fresh-id + n, named with suffix n + 1. Otherwise it is trimmed into the original. |
| MainFlow.ExecuteMainFlow | Source/LevelSequencerAudioTrimmer/Private/LSATUtilsLibrary.cpp:92-183 | The outer loop processes the sounds in multimap order. |
| MainFlow.GroupsCount | Source/LevelSequencerAudioTrimmer/Private/LSATUtilsLibrary.cpp:106-182 | Only windows not already trimmed advance the group index. Under ReimportOneAndDuplicateOthers, every processed group except the one at index groups - 1 makes one duplicate; under SkipAll none is made. |
| MainFlow.UntrimmedBound | Source/LevelSequencerAudioTrimmer/Private/LSATUtilsLibrary.cpp:112-116 | At most all windows are processed. |
| MainFlow.AllTrimmedUntouched | Source/LevelSequencerAudioTrimmer/Private/LSATUtilsLibrary.cpp:112-116 | A sound whose windows are all already trimmed changes nothing. |
| MainFlow.SkipAllIgnoresMultiWindow | Source/LevelSequencerAudioTrimmer/Private/LSATUtilsLibrary.cpp:98-104 | Under SkipAll, a sound with more than one window acts as if it were not in the multimap. |
| Trimmer.RunLevelSequenceAudioTrimmer | Source/LevelSequencerAudioTrimmer/Private/LSATUtilsLibrary.cpp:31-183 | The loop over sequences computes the preprocessing specification; the main flow follows only when no sequence emptied the multimap. |
| Trimmer.StopIgnoresLater | Source/LevelSequencerAudioTrimmer/Private/LSATUtilsLibrary.cpp:44-51 | Once a sequence empties the multimap, the later sequences are ignored. |
| Trimmer.ChainStopIgnoresLater | Source/LevelSequencerAudioTrimmer/Private/LSATUtilsLibrary.cpp:44-51 | For any step function, once a step stops the run, the later inputs are ignored. |
| Trimmer.PreprocessOnlyDuplicated | Source/LevelSequencerAudioTrimmer/Private/LSATUtilsLibrary.cpp:44-56 | Preprocessing never exports, trims or reimports; it only duplicates sound waves. |
| Trimmer.StageOnlyDuplicated | Source/LevelSequencerAudioTrimmer/Private/LSATUtilsLibrary.cpp:44-56 | The passes for one level sequence only duplicate sound waves. |
| Trimmer.EarlyStopSkipsMainFlow | Source/LevelSequencerAudioTrimmer/Private/LSATUtilsLibrary.cpp:46-51 | A run that stops early makes no export, trim or reimport attempt. |
| Trimmer.EmptyFirstSequenceChangesNothing | Source/LevelSequencerAudioTrimmer/Private/LSATUtilsLibrary.cpp:44-51 | When the first sequence is null, or has no audio section with a sound, the run changes nothing. |
| LegacyAudioTypes.InvalidIsNotValid | Source/LevelSequencerAudioTrimmer/Private/LevelSequencerAudioTypes.cpp:12-21 | The older Invalid window is not valid. |
| LegacyAudioTypes.EqualProperties | Source/LevelSequencerAudioTrimmer/Private/LevelSequencerAudioTypes.cpp:24-36 | Tolerance equality is symmetric and reflexive for a tolerance that is not negative. It never holds for a negative tolerance, and with tolerance 0 it is identity. |
| LegacyAudioTypes.EqualIsNotTransitive | Source/LevelSequencerAudioTrimmer/Private/LevelSequencerAudioTypes.cpp:24-36 | Windows 10 ms apart in a chain are pairwise equal, but the ends of the chain are not. |
| LegacyAudioTypes.HashIsExact | Source/LevelSequencerAudioTrimmer/Private/LevelSequencerAudioTypes.cpp:44-49 | The hash separates every two different windows, even windows the equality calls equal. |
| LegacyAudioTypes.AddSection | Source/LevelSequencerAudioTrimmer/Private/LevelSequencerAudioTypes.cpp:38-41 | Always true; adds the section once. |
| LegacyAudioTypes.FindIndex | Source/LevelSequencerAudioTrimmer/Private/LevelSequencerAudioTypes.cpp:61 | The first entry with an equal hash that also compares equal. |
| LegacyAudioTypes.Add | Source/LevelSequencerAudioTrimmer/Private/LevelSequencerAudioTypes.cpp:59-62 | Always returns true. |
| LegacyAudioTypes.AddStores | Source/LevelSequencerAudioTrimmer/Private/LevelSequencerAudioTypes.cpp:59-62 | The identical window's entry is reused when present and appended otherwise. Either way it holds the section, and the other entries are unchanged. |
| LegacyAudioTypes.AddSimilarWindowAppends | Source/LevelSequencerAudioTrimmer/Private/LevelSequencerAudioTypes.cpp:44-62 | A window that is only similar to the stored ones gets an entry of its own. |
| LegacyAudioTypes.AddNegativeToleranceAppends | Source/LevelSequencerAudioTrimmer/Private/LevelSequencerAudioTypes.cpp:32-36 | With a negative tolerance every add appends. |
| LegacyAudioTypes.AddTwice | Source/LevelSequencerAudioTrimmer/Private/LevelSequencerAudioTypes.cpp:59-62 | Adding the same section and window twice stores it once. |
| LegacyAudioTypes.GetFirstLevelSequence | Source/LevelSequencerAudioTrimmer/Private/LevelSequencerAudioTypes.cpp:52-57 | The owner of the first section of the first container, and nothing when that section is null or missing. The map must not be empty. |

## Left out

- **Export, trim, reimport and temp files.** Converting a sound wave to WAV, trimming with the audio library, reimporting and deleting temporary files are engine and file I/O. They appear only as the oracle results in `Engine.Host` and as entries in the action trace.
- **Asset side of duplication.** Package creation, asset-registry notification and dirty marking in `DuplicateSoundWave` are not modelled; a duplicate is a fresh id with the new name and the same duration.
- **Float arithmetic of windows.** `CalculateTrimTimesInSection` (`LSATUtilsLibrary.cpp:682-731`) divides frames by the tick resolution in `float` and casts the products with 1000 to `int32`. The model leaves out that conversion and the rounding of the casts: the section records give the start offset and the length in whole milliseconds. `CeilToInt` of the sound duration is left out in the same way: durations are whole milliseconds.
- **The section constructor of `FLSATTrimTimes`.** `FLSATTrimTimes(const UMovieSceneAudioSection*)` (`LSATTrimTimesData.cpp:22-36`) checks the tick resolution and a positive sound duration. No function of the modelled core calls it, so it is not modelled. `CalculateTrimTimesInSection` builds its window field by field and checks neither.
- **int32 overflow.** Integers are unbounded, so the int32 overflow of window sums, of `Atoi` and of the legacy `Abs` differences is not modelled.
- DuplicateSound.DigitsValue: `Atoi` is modelled on ASCII digits only; other Unicode digits, which `FChar::IsDigit` may accept, are not.
- TrimTimes.HashKey: the XOR that combines the three hashes is not modelled, so two different triples never collide. The same holds for LegacyAudioTypes.HashKey.
- **Tolerance 0.** `MinDifferenceMs` divides in `GetTypeHash`, so the new model requires a positive tolerance (`TrimTimes.Tolerance`). A tolerance of 0 would divide by zero in the source.
- **Aliasing and in-place key changes.** The source changes hashed keys in place, without rehashing:
  - `LSATTrimTimesData.cpp:336` widens a trim-times key;
  - `LSATUtilsLibrary.cpp:396` overwrites a multimap key;
  - the looping policy adds entries to the multimap while it holds a reference into it (`LSATUtilsLibrary.cpp:299` and `:323`).

  The model works on values. It computes the entries the code evidently intends, with the lookup each key would have after a rehash.
- TrimMap.SortEntries: the library sort's tie order is not modelled. The model uses a stable insertion sort; the proved properties (sorted, a permutation, keys distinct) hold for any tie order.
- **Rebuild processor.** The section processor of `RebuildTrimTimesMapWithProcessor` is a parameter, a function from section and window to sections. Its side effects on the editor are not modelled.
- **Settings singleton.** `ULSATSettings::Get()` is passed in explicitly as `PolicyTypes.Config`.
- **Null sound keys.** The new multimap never has a null sound wave as a key in the model, so its null-key guards are not modelled.
- **GetLoopingSounds.** The header declares `GetLoopingSounds`, but the file defines only the general `GetSounds`. The model takes `GetLoopingSounds` to be `GetSounds` with the looping predicate (`LoopingSounds.LoopingKey`).
- OutsideSounds.DuplicateFlaggedWellFormed: proved only when a flagged sound's keys all carry one sound. The looping-policy stage copies keys with the original sound, so that condition is not proved for the composed pipeline.
- MainFlow.GroupsCount: it states, and does not correct, that a skipped already-trimmed window stops the group index from reaching `Num() - 1`. In that case every processed group of the sound works on a duplicate.
- **Logging and engine assertions.** `UE_LOG` output is left out. `ensureMsgf` is kept only where it changes control flow.
