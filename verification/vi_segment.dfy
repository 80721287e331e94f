/**
 * Segmentation of a lower-case quốc ngữ syllable into initial, glide, nucleus and
 * coda (`segment` in cjkvo/vi.py). The source matches the pattern
 * `^(initial)?(.*?)(coda)?$`; because the middle group is lazy and can stretch over
 * anything but a line break, that match comes down to: the initial is the first
 * listed cluster that begins the syllable, the coda is the longest listed cluster
 * that ends what is left, and the middle is the rime.
 */
module VietnameseSegment {
  import opened Results
  import opened Sequences
  import opened VietnameseText
  import opened VietnameseTone

  /** The initial clusters in the order the pattern tries them; `gi` also appears with
    * each tone mark on its `i`, since only that initial can carry the syllable's tone. */
  const Initials: seq<Text> := [
    Plain("b"), Plain("ch"), Plain("c"), Plain("d"), Plain("đ"), Plain("gh"), Plain("gi"),
    Toned("gi", 1, S), Toned("gi", 1, F), Toned("gi", 1, R), Toned("gi", 1, X), Toned("gi", 1, J),
    Plain("g"), Plain("h"), Plain("kh"), Plain("k"), Plain("l"), Plain("m"), Plain("ngh"),
    Plain("ng"), Plain("nh"), Plain("n"), Plain("ph"), Plain("qu"), Plain("r"), Plain("s"),
    Plain("th"), Plain("tr"), Plain("t"), Plain("v"), Plain("x")]

  /** The consonant codas of the pattern. */
  const Codas: seq<Text> := [
    Plain("c"), Plain("ch"), Plain("ng"), Plain("nh"), Plain("n"), Plain("t"), Plain("p"), Plain("m")]

  /** The vowel letters `i`, `o`, `u`, `y` (without tone mark) that can close a rime as an offglide. */
  predicate IsSemivowel(l: Letter) {
    l.tone.None? && l.base in "iouy"
  }

  /** The tone-free rimes whose first letter is a glide:
    * `oa`, `oă`, `oe`, `uy`, `uê`, `uơ`, `uâ`. */
  predicate IsGlideRime(t: Text) {
    |t| == 2 && t[0].tone.None? && t[1].tone.None? &&
    ((t[0].base == 'o' && t[1].base in "aăe") || (t[0].base == 'u' && t[1].base in "yêơâ"))
  }

  function LineBreakFree(s: Text): (b: bool)
    ensures b <==> forall i :: 0 <= i < |s| ==> s[i].base != '\n'
  {
    s == [] || (s[0].base != '\n' && LineBreakFree(s[1..]))
  }

  /** The part of the syllable the pattern's groups cover: `.` matches anything but a
    * line break, and `$` also matches just before a line break that ends the text.
    * None when the pattern does not match at all. */
  function Covered(s: Text): (t: Option<Text>)
    ensures t.Some? ==> LineBreakFree(t.value) && IsPrefix(t.value, s) && |s| - 1 <= |t.value|
    ensures LineBreakFree(s) ==> t == Some(s)
  {
    if LineBreakFree(s) then Some(s)
    else if s != [] && s[|s| - 1] == Letter('\n', None) && LineBreakFree(s[..|s| - 1]) then Some(s[..|s| - 1])
    else None
  }

  /** The position, from `k` on, of the first alternative that begins `s`. */
  function FirstPrefixFrom(alts: seq<Text>, s: Text, k: nat): (i: Option<nat>)
    requires k <= |alts|
    ensures i.Some? ==> k <= i.value < |alts| && IsPrefix(alts[i.value], s)
    ensures forall j :: k <= j < (if i.Some? then i.value else |alts|) ==> !IsPrefix(alts[j], s)
    decreases |alts| - k
  {
    if k == |alts| then None
    else if IsPrefix(alts[k], s) then Some(k)
    else FirstPrefixFrom(alts, s, k + 1)
  }

  /** The initial group of the pattern: the first listed initial that begins `t`. */
  function MatchInitial(t: Text): (m: Option<Text>)
    ensures m.Some? ==> IsPrefix(m.value, t)
  {
    var i := FirstPrefixFrom(Initials, t, 0);
    if i.Some? then Some(Initials[i.value]) else None
  }

  /** Where the coda group starts in `a`: the first position from `k` on whose suffix is a
    * listed coda, or the end of `a` when there is none. */
  function CodaStart(a: Text, k: nat): (c: nat)
    requires k <= |a|
    ensures k <= c <= |a|
    ensures c < |a| ==> a[c..] in Codas
    ensures forall j :: k <= j < c ==> a[j..] !in Codas
    decreases |a| - k
  {
    if k == |a| then k
    else if a[k..] in Codas then k
    else CodaStart(a, k + 1)
  }

  /** extract_semivowel: splits a final offglide letter off a rime of two letters or more. */
  function ExtractSemivowel(s: Text): (m: (Option<Text>, Text))
    ensures m.1 + OrEmpty(m.0) == s
    ensures m.1 != [] <==> s != []
  {
    if 1 < |s| && IsSemivowel(s[|s| - 1]) then (Some([s[|s| - 1]]), s[..|s| - 1])
    else (None, s)
  }

  /** extract_glide: splits a two-letter glide rime into its glide and its vowel. */
  function ExtractGlide(s: Text): (m: (Option<Text>, Text))
    ensures OrEmpty(m.0) + m.1 == s
    ensures m.1 != [] <==> s != []
  {
    if IsGlideRime(Strip(s)) then (Some([s[0]]), [s[1]])
    else (None, s)
  }

  /** Whether the tone-free rime starts with `uy`. */
  predicate UyRime(rest: Text) {
    |rest| >= 2 && rest[0].base == 'u' && rest[1].base == 'y'
  }

  /** The rime rules of `segment`: the `uy` glide, then the offglide (only when the pattern
    * found no consonant coda), then the glide digraphs (only when no glide was found yet).
    * Nothing is lost or reordered: the slots spell the rime and the coda. */
  function SplitRime(initial: Option<Text>, rest: Text, coda: Option<Text>): (r: Slots)
    ensures r.initial == initial && r.tone.None?
    ensures OrEmpty(r.glide) + OrEmpty(r.nucleus) + OrEmpty(r.coda) == rest + OrEmpty(coda)
  {
    if rest == [] then Slots(initial, None, None, coda, None)
    else
      var glide1 := if UyRime(rest) then Some([rest[0]]) else None;
      var rest1 := if UyRime(rest) then rest[1..] else rest;
      assert OrEmpty(glide1) + rest1 == rest;
      var m2 := if coda.None? then ExtractSemivowel(rest1) else (coda, rest1);
      assert m2.1 + OrEmpty(m2.0) == rest1 + OrEmpty(coda);
      var m3 := if glide1.None? then ExtractGlide(m2.1) else (glide1, m2.1);
      assert OrEmpty(m3.0) + m3.1 == OrEmpty(glide1) + m2.1;
      Slots(initial, m3.0, Some(m3.1), m2.0, None)
  }

  lemma SplitRimeSpelling(initial: Option<Text>, rest: Text, coda: Option<Text>)
    ensures Spelling(SplitRime(initial, rest, coda)) == OrEmpty(initial) + rest + OrEmpty(coda)
  {
    var r := SplitRime(initial, rest, coda);
    RegroupTail(OrEmpty(initial), OrEmpty(r.glide), OrEmpty(r.nucleus), OrEmpty(r.coda), rest, OrEmpty(coda));
  }

  /** An empty rime leaves glide and nucleus absent; any other rime leaves a nucleus,
    * and a glide, when there is one, is the rime's first letter. */
  lemma SplitRimeSlots(initial: Option<Text>, rest: Text, coda: Option<Text>)
    ensures var r := SplitRime(initial, rest, coda);
            (rest == [] ==> r == Slots(initial, None, None, coda, None)) &&
            (rest != [] ==> Present(r.nucleus)) &&
            (r.glide.Some? ==> rest != [] && r.glide == Some([rest[0]]))
  {
  }

  /** A rime whose tone-free form starts with `uy` gives its `u` as glide. */
  lemma SplitRimeUy(initial: Option<Text>, rest: Text, coda: Option<Text>)
    requires UyRime(rest)
    ensures SplitRime(initial, rest, coda).glide == Some([rest[0]])
  {
  }

  /** A coda the pattern found is kept; otherwise an offglide letter `i`, `o`, `u` or `y`
    * becomes the coda exactly when it ends a rime that still has more than one letter
    * after the `uy` glide is split off. */
  lemma SplitRimeOffglide(initial: Option<Text>, rest: Text, coda: Option<Text>)
    ensures var r := SplitRime(initial, rest, coda);
            (coda.Some? ==> r.coda == coda) &&
            (coda.None? ==>
              (r.coda.Some? <==> rest != [] && 1 < |rest| - (if UyRime(rest) then 1 else 0) &&
                                 IsSemivowel(rest[|rest| - 1])) &&
              (r.coda.Some? ==> r.coda == Some([rest[|rest| - 1]])))
  {
    if rest != [] && coda.None? {
      var rest1 := if UyRime(rest) then rest[1..] else rest;
      assert SplitRime(initial, rest, coda).coda == ExtractSemivowel(rest1).0;
      assert |rest1| == |rest| - (if UyRime(rest) then 1 else 0);
      assert rest1 != [] ==> rest1[|rest1| - 1] == rest[|rest| - 1];
    }
  }

  /** A glide rime has two letters, and its second letter is an offglide only in `uy`. */
  lemma GlideRimeShape(rest: Text)
    requires IsGlideRime(Strip(rest))
    ensures |rest| == 2 && (UyRime(rest) || !IsSemivowel(rest[1]))
  {
    assert Strip(rest)[1].base == rest[1].base;
  }

  /** A tone-free rime that is a glide digraph becomes its first letter as glide and its
    * second letter as nucleus, whatever the pattern found as coda. */
  lemma GlideDigraphSplit(initial: Option<Text>, rest: Text, coda: Option<Text>)
    requires IsGlideRime(Strip(rest))
    ensures SplitRime(initial, rest, coda).glide == Some([rest[0]])
    ensures SplitRime(initial, rest, coda).nucleus == Some([rest[1]])
  {
    GlideRimeShape(rest);
    if UyRime(rest) {
      assert rest[1..] == [rest[1]];
    } else {
      assert ExtractSemivowel(rest) == (None, rest);
      assert ExtractGlide(rest) == (Some([rest[0]]), [rest[1]]);
    }
  }

  /** The groups of the pattern on a line-free text: the first listed initial, the rime,
    * and the longest listed coda that ends what follows the initial. */
  function MatchGroups(t: Text): (m: (Option<Text>, Text, Option<Text>))
    ensures OrEmpty(m.0) + m.1 + OrEmpty(m.2) == t
    ensures m.0 == MatchInitial(t)
  {
    var initial := MatchInitial(t);
    var after := t[|OrEmpty(initial)|..];
    var c := CodaStart(after, 0);
    PrefixSplit(OrEmpty(initial), t);
    CutTail(OrEmpty(initial), after, c);
    (initial, after[..c], if c < |after| then Some(after[c..]) else None)
  }

  /** segment: initial, rime and coda by the pattern, then the rime rules. The tone
    * slot is left empty; the nucleus may still carry the tone mark. */
  function Segment(s: Text): (r: Result<Slots, Error>)
    ensures r.Err? <==> Covered(s).None?
    ensures r.Err? ==> r.error == SegmentationError
    ensures r.Ok? ==> r.value.tone.None? && Spelling(r.value) == Covered(s).value
  {
    match Covered(s)
    case None => Err(SegmentationError)
    case Some(t) =>
      var m := MatchGroups(t);
      SplitRimeSpelling(m.0, m.1, m.2);
      Ok(SplitRime(m.0, m.1, m.2))
  }

  /** The initial is the first cluster, in the listed order, that begins the syllable;
    * none is found only when no listed cluster begins it. */
  lemma SegmentInitialFirstListed(s: Text)
    requires Covered(s).Some?
    ensures var t, r := Covered(s).value, Segment(s).value;
            (r.initial.Some? ==>
               exists i :: 0 <= i < |Initials| && Initials[i] == r.initial.value && IsPrefix(Initials[i], t) &&
                           forall j :: 0 <= j < i ==> !IsPrefix(Initials[j], t)) &&
            (r.initial.None? ==> forall j :: 0 <= j < |Initials| ==> !IsPrefix(Initials[j], t))
  {
    var t := Covered(s).value;
    var m := MatchGroups(t);
    assert Segment(s).value.initial == MatchInitial(t);
    var i := FirstPrefixFrom(Initials, t, 0);
    if i.Some? {
      assert Initials[i.value] == MatchInitial(t).value;
    }
  }

  /** `coda` is the longest listed coda that ends `a` when some listed coda ends it, and
    * otherwise empty or an offglide letter. */
  predicate LongestCodaOf(a: Text, coda: Option<Text>) {
    ((exists k :: 0 <= k < |a| && a[k..] in Codas) ==>
       coda.Some? && coda.value in Codas && |coda.value| <= |a| &&
       a[|a| - |coda.value|..] == coda.value &&
       forall k :: 0 <= k < |a| - |coda.value| ==> a[k..] !in Codas) &&
    ((forall k :: 0 <= k < |a| ==> a[k..] !in Codas) ==>
       coda.None? || (|coda.value| == 1 && IsSemivowel(coda.value[0])))
  }

  /** When some listed coda ends `a`, CodaStart finds the longest one. */
  lemma CodaStartLongest(a: Text)
    requires exists k :: 0 <= k < |a| && a[k..] in Codas
    ensures var c := CodaStart(a, 0);
            c < |a| && a[c..] in Codas && |a| - |a[c..]| == c &&
            forall k :: 0 <= k < c ==> a[k..] !in Codas
  {
    var k :| 0 <= k < |a| && a[k..] in Codas;
    assert CodaStart(a, 0) <= k;
  }

  /** The coda the rime rules leave, after the coda group split at CodaStart, is the
    * longest one. */
  lemma SplitRimeCodaLongest(initial: Option<Text>, a: Text)
    ensures var c := CodaStart(a, 0);
            LongestCodaOf(a, SplitRime(initial, a[..c], if c < |a| then Some(a[c..]) else None).coda)
  {
    var c := CodaStart(a, 0);
    var coda := if c < |a| then Some(a[c..]) else None;
    SplitRimeOffglide(initial, a[..c], coda);
    if exists k :: 0 <= k < |a| && a[k..] in Codas {
      CodaStartLongest(a);
    }
  }

  /** The coda the pattern finds is the longest listed coda that ends what follows the
    * initial; when no listed coda ends it, the coda slot is empty or an offglide letter. */
  lemma SegmentCodaLongest(s: Text)
    requires Covered(s).Some?
    ensures var t, r := Covered(s).value, Segment(s).value;
            LongestCodaOf(t[|OrEmpty(r.initial)|..], r.coda)
  {
    var t := Covered(s).value;
    var initial := MatchInitial(t);
    var a := t[|OrEmpty(initial)|..];
    var c := CodaStart(a, 0);
    assert MatchGroups(t) == (initial, a[..c], if c < |a| then Some(a[c..]) else None);
    assert Segment(s).value == SplitRime(initial, a[..c], if c < |a| then Some(a[c..]) else None);
    SplitRimeCodaLongest(initial, a);
  }
}
