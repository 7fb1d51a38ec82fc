/** FLSATSectionsContainer: the audio sections that share one usage window,
    without repetitions, in the order they were added. */
module SectionsContainer {
  import opened Wrappers
  import opened Engine
  import opened Arrays

  type Sections = seq<SectionRef>

  /** FLSATSectionsContainer::Add: AddUnique, whose index is never negative,
      so the call always reports success. */
  function Add(s: Sections, x: SectionRef): (r: (bool, Sections))
    ensures r.0
    ensures forall y :: y in r.1 <==> y in s || y == x
    ensures |s| <= |r.1| <= |s| + 1 && r.1[..|s|] == s
    ensures NoDup(s) ==> NoDup(r.1)
  {
    (true, AddUnique(s, x))
  }

  /** The fold the Append loop computes over the first elements of `other`:
      every non-null section is added uniquely. */
  function AppendSpec(s: Sections, other: Sections): Sections
  {
    if |other| == 0 then s
    else
      var r := AppendSpec(s, other[..|other| - 1]);
      var x := other[|other| - 1];
      if x.Some? then AddUnique(r, x) else r
  }

  /** What Append gives: the old sections first, then those non-null sections
      of `other` that were not yet present. */
  lemma {:induction false} AppendSpecContents(s: Sections, other: Sections)
    ensures var r := AppendSpec(s, other);
      && (forall y :: y in r <==> y in s || (y in other && y.Some?))
      && |s| <= |r| && r[..|s|] == s
      && (NoDup(s) ==> NoDup(r))
  {
    if |other| > 0 {
      var init := other[..|other| - 1];
      AppendSpecContents(s, init);
      assert forall y :: y in other <==> y in init || y == other[|other| - 1] by {
        assert other == init + [other[|other| - 1]];
      }
    }
  }

  /** FLSATSectionsContainer::Append. */
  method Append(s: Sections, other: Sections) returns (r: Sections)
    ensures r == AppendSpec(s, other)
    ensures forall y :: y in r <==> y in s || (y in other && y.Some?)
    ensures NoDup(s) ==> NoDup(r)
  {
    r := s;
    var i := 0;
    while i < |other|
      invariant 0 <= i <= |other|
      invariant r == AppendSpec(s, other[..i])
    {
      assert other[..i + 1][..i] == other[..i];
      if other[i].Some? {
        r := AddUnique(r, other[i]);
      }
      i := i + 1;
    }
    assert other[..i] == other;
    AppendSpecContents(s, other);
  }

  /** The world after SetSound on every section in `s`, one after another. */
  function SetSoundSpec(w: World, s: Sections, sound: Option<SoundWave>): (r: World)
    ensures r.sections.Keys == w.sections.Keys
    ensures r.nextSoundId == w.nextSoundId && r.attempts == w.attempts && r.trace == w.trace
    ensures forall id :: id in w.sections ==>
      r.sections[id] == if Some(id) in s then w.sections[id].(sound := sound) else w.sections[id]
  {
    if |s| == 0 then w
    else
      var prev := SetSoundSpec(w, s[..|s| - 1], sound);
      assert forall id :: Some(id) in s <==> Some(id) in s[..|s| - 1] || s[|s| - 1] == Some(id) by {
        assert s == s[..|s| - 1] + [s[|s| - 1]];
      }
      SetSectionSound(prev, s[|s| - 1], sound)
  }

  /** Only the section records change, so two SetSound passes with the same
      sound are one pass over both containers. */
  lemma SetSoundSpecConcat(w: World, a: Sections, b: Sections, sound: Option<SoundWave>)
    ensures SetSoundSpec(SetSoundSpec(w, a, sound), b, sound) == SetSoundSpec(w, a + b, sound)
  {
    var mid := SetSoundSpec(w, a, sound);
    var left := SetSoundSpec(mid, b, sound);
    var right := SetSoundSpec(w, a + b, sound);
    forall id | id in w.sections
      ensures left.sections[id] == right.sections[id]
    {
      assert Some(id) in a + b <==> Some(id) in a || Some(id) in b;
    }
    assert left.sections == right.sections;
  }

  /** FLSATSectionsContainer::SetSound: null entries are skipped, which
      nullptr-like identities in the world already are. */
  method SetSound(w: World, s: Sections, sound: Option<SoundWave>) returns (r: World)
    ensures r == SetSoundSpec(w, s, sound)
  {
    r := w;
    var i := 0;
    while i < |s|
      invariant 0 <= i <= |s|
      invariant r == SetSoundSpec(w, s[..i], sound)
    {
      assert s[..i + 1][..i] == s[..i];
      if s[i].Some? {
        r := SetSectionSound(r, s[i], sound);
      }
      i := i + 1;
    }
    assert s[..i] == s;
  }
}
