/** DuplicateSoundWave: the name of a duplicate is the original's name with
    its trailing number increased by the duplicate index (or the index
    appended when there is no trailing number), and the duplicate is a new
    sound wave asset with the same content. */
module DuplicateSound {
  import opened Wrappers
  import opened Engine

  predicate IsDigit(c: char) {
    '0' <= c <= '9'
  }

  predicate AllDigits(s: string) {
    forall i :: 0 <= i < |s| ==> IsDigit(s[i])
  }

  /** FindLastCharByPredicate with "is not a digit": the index of the last
      non-digit character, or -1 (INDEX_NONE) when there is none. */
  function LastNonDigit(s: string): (i: int)
    ensures -1 <= i < |s|
    ensures i >= 0 ==> !IsDigit(s[i])
    ensures AllDigits(s[i + 1..])
  {
    if s == [] then -1
    else if !IsDigit(s[|s| - 1]) then |s| - 1
    else
      var i := LastNonDigit(s[..|s| - 1]);
      assert s[i + 1..] == s[..|s| - 1][i + 1..] + [s[|s| - 1]];
      i
  }

  /** Atoi on a non-empty run of decimal digits (leading zeros allowed). */
  function DigitsValue(d: string): nat
    requires AllDigits(d)
  {
    if d == [] then 0
    else DigitsValue(d[..|d| - 1]) * 10 + (d[|d| - 1] as int - '0' as int)
  }

  /** The %d rendering of a natural number: decimal, no leading zeros. */
  function NatToString(n: nat): (s: string)
    ensures |s| > 0 && AllDigits(s)
    ensures DigitsValue(s) == n
  {
    if n < 10 then [('0' as int + n) as char]
    else
      var p := NatToString(n / 10);
      var s := p + [('0' as int + n % 10) as char];
      assert s[..|s| - 1] == p;
      s
  }

  /** The %d rendering of an integer: a minus sign before a negative one. */
  function IntToString(n: int): (s: string)
    ensures |s| > 0
    ensures n >= 0 ==> AllDigits(s) && DigitsValue(s) == n
    ensures n < 0 ==> s[0] == '-'
  {
    if n >= 0 then NatToString(n) else "-" + NatToString(-n)
  }

  /** The name generator of DuplicateSoundWave. */
  function DuplicateName(name: string, duplicateIndex: int): string {
    var i := LastNonDigit(name);
    var newIndex := if i + 1 < |name| then DigitsValue(name[i + 1..]) + duplicateIndex else duplicateIndex;
    name[..i + 1] + IntToString(newIndex)
  }

  /** For every non-zero index the generated name differs from the original,
      so the check that guards the duplication never fails for the indices
      the trimmer passes (1 and GroupIndex + 1). */
  lemma DuplicateNameDiffers(name: string, duplicateIndex: int)
    requires duplicateIndex != 0
    ensures DuplicateName(name, duplicateIndex) != name
  {
    var i := LastNonDigit(name);
    var prefix := name[..i + 1];
    var r := DuplicateName(name, duplicateIndex);
    if i + 1 < |name| {
      var d := name[i + 1..];
      var v := DigitsValue(d) + duplicateIndex;
      assert name == prefix + d;
      assert r == prefix + IntToString(v);
    } else {
      assert |r| == |prefix| + |IntToString(duplicateIndex)| > |name|;
    }
  }

  lemma DuplicateNameExamples()
    ensures DuplicateName("SoundWave", 1) == "SoundWave1"
    ensures DuplicateName("SoundWave1", 1) == "SoundWave2"
    ensures DuplicateName("SW_Step", 2) == "SW_Step2"
    ensures DuplicateName("SoundWave5", 0) == "SoundWave5"
  {
    assert LastNonDigit("SoundWave") == 8;
    assert "SoundWave1"[..9] == "SoundWave";
    assert LastNonDigit("SoundWave1") == 8;
    assert "SoundWave1"[9..] == "1";
    assert "SoundWave1"[..9] == "SoundWave";
    assert DigitsValue("1") == 1 by { assert "1"[..0] == ""; }
    assert LastNonDigit("SW_Step") == 6;
    assert "SoundWave5"[..9] == "SoundWave";
    assert LastNonDigit("SoundWave5") == 8;
    assert "SoundWave5"[9..] == "5";
    assert DigitsValue("5") == 5 by { assert "5"[..0] == ""; }
  }

  /** DuplicateSoundWave: refuses (nullptr, nothing created) when the
      generated name equals the original's; otherwise the engine creates a new
      sound wave with a fresh identity, the generated name and the same
      content, and the creation is recorded. */
  function DuplicateSoundWave(w: World, original: SoundWave, duplicateIndex: int): (r: (Option<SoundWave>, World))
    ensures duplicateIndex != 0 ==> r.0.Some?
    ensures r.0.None? ==> r.1 == w
    ensures r.0.Some? ==>
      && r.0.value == SoundWave(w.nextSoundId, DuplicateName(original.name, duplicateIndex), original.durationMs)
      && r.0.value.name != original.name
      && r.1 == w.(nextSoundId := w.nextSoundId + 1, trace := w.trace + [Duplicated(original, duplicateIndex, r.0.value)])
  {
    var newName := DuplicateName(original.name, duplicateIndex);
    if newName == original.name then
      (None, w)
    else
      var copy := SoundWave(w.nextSoundId, newName, original.durationMs);
      (Some(copy), w.(nextSoundId := w.nextSoundId + 1, trace := w.trace + [Duplicated(original, duplicateIndex, copy)]))
  }
}
