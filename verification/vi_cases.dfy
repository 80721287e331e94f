/**
 * The syllables of cjkvo/test_vi.py, parsed and written back. Each case shows how
 * segment splits the syllable, which slots normalize makes of that split, and that
 * denormalize gives the split back, so that emit_vietnamese writes the syllable again
 * (or, for the three old-style spellings, the spelling the tests expect instead).
 */
module VietnameseCases {
  import opened Results
  import opened Sequences
  import opened VietnameseText
  import opened VietnameseTone
  import opened VietnameseSegment
  import opened VietnameseRules

  function Marked(p: string, c: char, t: Tone, q: string): (m: Text)
    ensures |m| == |p| + 1 + |q|
  {
    Plain(p) + [Letter(c, Some(t))] + Plain(q)
  }

  lemma {:induction false} LastToneOfToneless(a: Text, b: Text)
    requires Toneless(b)
    ensures LastTone(a + b) == LastTone(a)
    decreases |b|
  {
    if b != [] {
      assert (a + b)[|a + b| - 1] == b[|b| - 1];
      assert (a + b)[..|a + b| - 1] == a + b[..|b| - 1];
      LastToneOfToneless(a, b[..|b| - 1]);
    } else {
      assert a + b == a;
    }
  }

  lemma MarkedTone(p: string, c: char, t: Tone, q: string)
    ensures LastTone(Marked(p, c, t, q)) == Some(t)
    ensures Strip(Marked(p, c, t, q)) == Plain(p + [c] + q)
  {
    PlainSpells(q);
    LastToneOfToneless(Plain(p) + [Letter(c, Some(t))], Plain(q));
    MarkedStrip(p, c, t, q);
  }

  lemma MarkedStrip(p: string, c: char, t: Tone, q: string)
    ensures Strip(Marked(p, c, t, q)) == Plain(p + [c] + q)
  {
    var m, s := Marked(p, c, t, q), p + [c] + q;
    forall i | 0 <= i < |m| ensures Strip(m)[i] == Plain(s)[i] {
      if i < |p| {
        assert m[i] == Letter(p[i], None) && s[i] == p[i];
      } else if i == |p| {
        assert s[i] == c;
      } else {
        assert m[i] == Letter(q[i - |p| - 1], None) && s[i] == q[i - |p| - 1];
      }
    }
  }

  lemma MarkedByAddTone(p: string, c: char, t: Tone, q: string, atBeginning: bool)
    requires if atBeginning then p == "" else q == ""
    ensures AddTone(Some(t), Plain(p + [c] + q), atBeginning) == Marked(p, c, t, q)
  {
    var s := p + [c] + q;
    if atBeginning {
      assert s[1..] == q;
    } else {
      assert s[..|s| - 1] == p;
    }
  }

  const Heads := "bccdđgggggggghkklmnnnnpqrstttvx"

  lemma InitialHeads()
    ensures |Heads| == |Initials|
    ensures forall j :: 0 <= j < |Initials| ==> Initials[j] != [] && Initials[j][0] == Letter(Heads[j], None)
  {
  }

  /** A text that differs from `s` at a position both have does not begin `s`. */
  lemma Mismatch(p: Text, s: Text, k: nat)
    requires k < |p| && k < |s| && p[k] != s[k]
    ensures !IsPrefix(p, s)
  {
    if |p| <= |s| {
      assert s[..|p|][k] == s[k];
    }
  }

  /** Facts about a text with no tone mark. */
  lemma Untoned(s: string)
    ensures Toneless(Plain(s)) && Bases(Plain(s)) == s
    ensures Strip(Plain(s)) == Plain(s) && LastTone(Plain(s)).None?
  {
    PlainSpells(s);
    StripFixesToneless(Plain(s));
  }

  /** denormalize through its first three and its last five steps. */
  lemma DenormalizeThrough(r: Slots, x: Slots, y: Slots, d: Slots)
    requires DenormGlide(DenormNucleus(DenormCoda(r))) == Ok(x)
    requires DenormInitial(x) == Ok(y)
    requires DenormTone(DeduplicateI(DenormQ(RemoveShortA(y)))) == d
    ensures Denormalize(r) == Ok(d)
  {
  }

  /** normalize through its first four and its last four steps. */
  lemma NormalizeThrough(r: Slots, x: Slots, n: Slots)
    requires AddShortA(NormQ(DuplicateI(NormTone(r)))) == x && Present(DuplicateI(NormTone(r)).nucleus)
    requires NormCoda(NormNucleus(NormGlide(NormInitial(x)))) == n
    ensures Normalize(r) == Ok(n)
  {
  }

  lemma {:induction false} FirstPrefixAt(alts: seq<Text>, s: Text, i: nat, k: nat)
    requires k <= i < |alts| && IsPrefix(alts[i], s)
    requires forall j :: k <= j < i ==> !IsPrefix(alts[j], s)
    ensures FirstPrefixFrom(alts, s, k) == Some(i)
    decreases i - k
  {
    if k < i {
      FirstPrefixAt(alts, s, i, k + 1);
    }
  }

  lemma {:induction false} FirstPrefixNone(alts: seq<Text>, s: Text, k: nat)
    requires k <= |alts|
    requires forall j :: k <= j < |alts| ==> !IsPrefix(alts[j], s)
    ensures FirstPrefixFrom(alts, s, k) == None
    decreases |alts| - k
  {
    if k < |alts| {
      FirstPrefixNone(alts, s, k + 1);
    }
  }

  lemma NotCoda(x: Text)
    requires |x| == 0 || |x| > 2 || x[|x| - 1].base !in "cghntpm" || (|x| == 2 && x[0].base !in "cn")
    ensures x !in Codas
  {
  }

  lemma CodaShape(x: Text)
    requires x in Codas
    ensures 1 <= |x| <= 2
  {
  }

  lemma CodaStartAt(a: Text, c: nat)
    requires c <= |a|
    requires c < |a| ==> a[c..] in Codas
    requires forall j :: 0 <= j < c ==> a[j..] !in Codas
    ensures CodaStart(a, 0) == c
  {
  }

  /** A rime that ends in a vowel letter: no suffix that starts inside it is a coda. */
  predicate VowelRime(rime: Text, coda: Option<Text>) {
    (rime == [] ==> coda.None?) &&
    (rime != [] ==> rime[|rime| - 1].base !in "cghntpm") &&
    (coda.Some? ==> coda.value in Codas)
  }

  lemma SuffixNotCoda(rime: Text, coda: Option<Text>, j: nat)
    requires j < |rime| && VowelRime(rime, coda)
    ensures (rime + OrEmpty(coda))[j..] !in Codas
  {
    var x := (rime + OrEmpty(coda))[j..];
    if coda.None? {
      assert x[|x| - 1] == rime[|rime| - 1];
    } else {
      CodaShape(coda.value);
      assert |x| == |rime| - j + |coda.value|;
      assert x[0] == rime[j];
    }
    NotCoda(x);
  }

  /** After a rime that ends in a vowel letter, the coda group is exactly the listed coda. */
  lemma CodaAfterVowel(rime: Text, coda: Option<Text>)
    requires VowelRime(rime, coda)
    ensures CodaStart(rime + OrEmpty(coda), 0) == |rime|
  {
    var a := rime + OrEmpty(coda);
    forall j | 0 <= j < |rime| ensures a[j..] !in Codas {
      SuffixNotCoda(rime, coda, j);
    }
    assert a[|rime|..] == OrEmpty(coda);
    CodaStartAt(a, |rime|);
  }

  lemma MatchGroupsOf(s: Text, initial: Option<Text>, rime: Text, coda: Option<Text>)
    requires MatchInitial(s) == initial
    requires |OrEmpty(initial)| <= |s| && s[|OrEmpty(initial)|..] == rime + OrEmpty(coda)
    requires VowelRime(rime, coda)
    ensures MatchGroups(s) == (initial, rime, coda)
  {
    var after := rime + OrEmpty(coda);
    CodaAfterVowel(rime, coda);
    assert after[..|rime|] == rime;
    if coda.Some? {
      assert after[|rime|..] == coda.value;
    }
  }

  lemma DropFirst<T>(a: seq<T>, b: seq<T>, c: seq<T>)
    ensures (a + b + c)[|a|..] == b + c
  {
    assert a + b + c == a + (b + c);
  }

  /** The initial, rime and coda of a syllable as the segmenting pattern sees them:
    * no line break, and a rime ending in a vowel letter before the listed coda. */
  predicate Pieces(initial: Option<Text>, rime: Text, coda: Option<Text>) {
    LineBreakFree(OrEmpty(initial)) && LineBreakFree(rime) && LineBreakFree(OrEmpty(coda)) &&
    VowelRime(rime, coda)
  }

  lemma LineBreakFreeJoin(a: Text, b: Text, c: Text)
    requires LineBreakFree(a) && LineBreakFree(b) && LineBreakFree(c)
    ensures LineBreakFree(a + b + c)
  {
    forall i | 0 <= i < |a + b + c| ensures (a + b + c)[i].base != '\n' {
      if i < |a| {
        assert (a + b + c)[i] == a[i];
      } else if i < |a + b| {
        assert (a + b + c)[i] == b[i - |a|];
      } else {
        assert (a + b + c)[i] == c[i - |a + b|];
      }
    }
  }

  /** segment on a syllable spelled by an initial, a rime ending in a vowel letter, and a
    * coda, none of them holding a line break. */
  lemma SegmentOf(s: Text, initial: Option<Text>, rime: Text, coda: Option<Text>)
    requires s == OrEmpty(initial) + rime + OrEmpty(coda)
    requires MatchInitial(s) == initial && Pieces(initial, rime, coda)
    ensures LineBreakFree(s) && Segment(s) == Ok(SplitRime(initial, rime, coda))
  {
    LineBreakFreeJoin(OrEmpty(initial), rime, OrEmpty(coda));
    DropFirst(OrEmpty(initial), rime, OrEmpty(coda));
    MatchGroupsOf(s, initial, rime, coda);
  }

  /** parse_vietnamese is segment followed by normalize. */
  lemma Parses(s: Text, segments: Slots, n: Slots)
    requires Segment(s) == Ok(segments) && Normalize(segments) == Ok(n)
    ensures ParseVietnamese(s) == Ok(n)
  {
  }

  /** Where denormalize gives back what segment found, emit_vietnamese writes the
    * parsed syllable as it was given. */
  lemma RoundTrip(s: Text, segments: Slots, n: Slots)
    requires LineBreakFree(s) && Segment(s) == Ok(segments) && Normalize(segments) == Ok(n)
    requires Denormalize(n) == Ok(segments)
    ensures ParseVietnamese(s) == Ok(n) && EmitVietnamese(n) == Ok(s)
  {
    assert Covered(s) == Some(s);
  }

  // qua is (k, w, a, -, -): the initial qu is k followed by the glide w, and the
  // glide before a is written o until denorm_q folds it back into qu.

  const QuaText := Plain("qu") + Plain("a")
  const QuaSegments := Slots(Some(Plain("qu")), None, Some(Plain("a")), None, None)
  const Qua := Slots(Some(Plain("k")), Some(Plain("w")), Some(Plain("a")), None, None)

  lemma QuaInitial()
    ensures MatchInitial(QuaText) == Some(Plain("qu"))
  {
    InitialHeads();
    forall j | 0 <= j < 23 ensures !IsPrefix(Initials[j], QuaText) {
      assert Heads[j] != 'q';
      Mismatch(Initials[j], QuaText, 0);
    }
    FirstPrefixAt(Initials, QuaText, 23, 0);
  }

  lemma QuaOffglide()
    ensures ExtractSemivowel(Plain("a")) == (None, Plain("a"))
  {
  }

  lemma QuaGlide()
    ensures ExtractGlide(Plain("a")) == (None, Plain("a"))
  {
    Untoned("a");
  }

  lemma QuaSplit()
    ensures SplitRime(Some(Plain("qu")), Plain("a"), None) == QuaSegments
  {
    QuaOffglide();
    QuaGlide();
  }

  lemma QuaPieces()
    ensures Pieces(Some(Plain("qu")), Plain("a"), None)
  {
  }

  lemma QuaSegment()
    ensures LineBreakFree(QuaText) && Segment(QuaText) == Ok(QuaSegments)
  {
    QuaInitial();
    QuaSplit();
    QuaPieces();
    SegmentOf(QuaText, Some(Plain("qu")), Plain("a"), None);
  }

  lemma QuaDenormalizeFirst()
    ensures DenormGlide(DenormNucleus(DenormCoda(Qua))) == Ok(Qua.(glide := Some(Plain("o"))))
  {
    Untoned("a");
    Untoned("k");
    Untoned("o");
    Untoned("w");
    assert DenormCoda(Qua) == Qua;
    assert DenormNucleus(Qua) == Qua;
    var x1 := Qua.(glide := Some(Plain("o")));
    assert DenormGlide(Qua) == Ok(x1);
  }

  lemma QuaDenormalizeInitial()
    ensures DenormInitial(Qua.(glide := Some(Plain("o")))) == Ok(Qua.(initial := Some(Plain("q")), glide := Some(Plain("o"))))
  {
    var y := Qua.(glide := Some(Plain("o")));
    Untoned("a");
    Untoned("k");
    Untoned("o");
    Untoned("q");
    var x1 := Qua.(initial := Some(Plain("q")), glide := Some(Plain("o")));
    assert DenormInitial(y) == Ok(x1);
  }

  lemma QuaDenormalizeSpelling()
    ensures DeduplicateI(DenormQ(RemoveShortA(Qua.(initial := Some(Plain("q")), glide := Some(Plain("o")))))) == Qua.(initial := Some(Plain("qu")), glide := None)
  {
    var y := Qua.(initial := Some(Plain("q")), glide := Some(Plain("o")));
    Untoned("a");
    Untoned("o");
    Untoned("q");
    Untoned("qu");
    assert RemoveShortA(y) == y;
    var x1 := Qua.(initial := Some(Plain("qu")), glide := None);
    assert DenormQ(y) == x1;
    assert DeduplicateI(x1) == x1;
  }

  lemma QuaDenormalizeTone()
    ensures DenormTone(Qua.(initial := Some(Plain("qu")), glide := None)) == QuaSegments
  {
    var y := Qua.(initial := Some(Plain("qu")), glide := None);
    Untoned("a");
    Untoned("qu");
    assert DenormTone(y) == y;
  }

  lemma QuaNormal()
    ensures Normal(Qua)
  {
    Untoned("a");
    Untoned("k");
    Untoned("w");
  }

  lemma QuaRoundTrip()
    ensures ParseVietnamese(QuaText) == Ok(Qua) && EmitVietnamese(Qua) == Ok(QuaText)
  {
    QuaSegment();
    QuaDenormalizeFirst();
    QuaDenormalizeInitial();
    QuaDenormalizeSpelling();
    QuaDenormalizeTone();
    DenormalizeThrough(Qua, Qua.(glide := Some(Plain("o"))), Qua.(initial := Some(Plain("q")), glide := Some(Plain("o"))), QuaSegments);
    QuaNormal();
    NormalizeUndoesDenormalize(Qua);
    RoundTrip(QuaText, QuaSegments, Qua);
  }

  // hoa is (h, w, a, -, -): oa is the glide o and the nucleus a.

  const HoaText := Plain("h") + Plain("oa")
  const HoaSegments := Slots(Some(Plain("h")), Some(Plain("o")), Some(Plain("a")), None, None)
  const Hoa := Slots(Some(Plain("h")), Some(Plain("w")), Some(Plain("a")), None, None)

  lemma HoaInitial()
    ensures MatchInitial(HoaText) == Some(Plain("h"))
  {
    InitialHeads();
    forall j | 0 <= j < 13 ensures !IsPrefix(Initials[j], HoaText) {
      assert Heads[j] != 'h';
      Mismatch(Initials[j], HoaText, 0);
    }
    FirstPrefixAt(Initials, HoaText, 13, 0);
  }

  lemma HoaNotUy()
    ensures !UyRime(Plain("oa"))
  {
  }

  lemma HoaOffglide()
    ensures ExtractSemivowel(Plain("oa")) == (None, Plain("oa"))
  {
  }

  lemma HoaGlide()
    ensures ExtractGlide(Plain("oa")) == (Some(Plain("o")), Plain("a"))
  {
    Untoned("oa");
    assert [Plain("oa")[0]] == Plain("o") && [Plain("oa")[1]] == Plain("a");
  }

  lemma HoaSplit()
    ensures SplitRime(Some(Plain("h")), Plain("oa"), None) == HoaSegments
  {
    HoaNotUy();
    HoaOffglide();
    HoaGlide();
  }

  lemma HoaPieces()
    ensures Pieces(Some(Plain("h")), Plain("oa"), None)
  {
  }

  lemma HoaSegment()
    ensures LineBreakFree(HoaText) && Segment(HoaText) == Ok(HoaSegments)
  {
    HoaInitial();
    HoaSplit();
    HoaPieces();
    SegmentOf(HoaText, Some(Plain("h")), Plain("oa"), None);
  }

  lemma HoaDenormalizeFirst()
    ensures DenormGlide(DenormNucleus(DenormCoda(Hoa))) == Ok(Hoa.(glide := Some(Plain("o"))))
  {
    Untoned("a");
    Untoned("h");
    Untoned("o");
    Untoned("w");
    assert DenormCoda(Hoa) == Hoa;
    assert DenormNucleus(Hoa) == Hoa;
    var x1 := Hoa.(glide := Some(Plain("o")));
    assert DenormGlide(Hoa) == Ok(x1);
  }

  lemma HoaDenormalizeInitial()
    ensures DenormInitial(Hoa.(glide := Some(Plain("o")))) == Ok(Hoa.(glide := Some(Plain("o"))))
  {
    var y := Hoa.(glide := Some(Plain("o")));
    Untoned("a");
    Untoned("h");
    Untoned("o");
    assert DenormInitial(y) == Ok(y);
  }

  lemma HoaDenormalizeSpelling()
    ensures DeduplicateI(DenormQ(RemoveShortA(Hoa.(glide := Some(Plain("o")))))) == Hoa.(glide := Some(Plain("o")))
  {
    var y := Hoa.(glide := Some(Plain("o")));
    Untoned("a");
    Untoned("h");
    Untoned("o");
    assert RemoveShortA(y) == y;
    assert DenormQ(y) == y;
    assert DeduplicateI(y) == y;
  }

  lemma HoaDenormalizeTone()
    ensures DenormTone(Hoa.(glide := Some(Plain("o")))) == HoaSegments
  {
    var y := Hoa.(glide := Some(Plain("o")));
    Untoned("a");
    Untoned("h");
    Untoned("o");
    assert DenormTone(y) == y;
  }

  lemma HoaNormal()
    ensures Normal(Hoa)
  {
    Untoned("a");
    Untoned("h");
    Untoned("w");
  }

  lemma HoaRoundTrip()
    ensures ParseVietnamese(HoaText) == Ok(Hoa) && EmitVietnamese(Hoa) == Ok(HoaText)
  {
    HoaSegment();
    HoaDenormalizeFirst();
    HoaDenormalizeInitial();
    HoaDenormalizeSpelling();
    HoaDenormalizeTone();
    DenormalizeThrough(Hoa, Hoa.(glide := Some(Plain("o"))), Hoa.(glide := Some(Plain("o"))), HoaSegments);
    HoaNormal();
    NormalizeUndoesDenormalize(Hoa);
    RoundTrip(HoaText, HoaSegments, Hoa);
  }

  // hoay is (h, w, aw, i, -): the offglide y comes off before the glide o, and a
  // before the offglide y is the short ă.

  const HoayText := Plain("h") + Plain("oay")
  const HoaySegments := Slots(Some(Plain("h")), Some(Plain("o")), Some(Plain("a")), Some(Plain("y")), None)
  const Hoay := Slots(Some(Plain("h")), Some(Plain("w")), Some(Plain("aw")), Some(Plain("i")), None)

  lemma HoayInitial()
    ensures MatchInitial(HoayText) == Some(Plain("h"))
  {
    InitialHeads();
    forall j | 0 <= j < 13 ensures !IsPrefix(Initials[j], HoayText) {
      assert Heads[j] != 'h';
      Mismatch(Initials[j], HoayText, 0);
    }
    FirstPrefixAt(Initials, HoayText, 13, 0);
  }

  lemma HoayNotUy()
    ensures !UyRime(Plain("oay"))
  {
  }

  lemma HoayOffglide()
    ensures ExtractSemivowel(Plain("oay")) == (Some(Plain("y")), Plain("oa"))
  {
    assert Plain("oay")[..2] == Plain("oa");
    assert [Plain("oay")[2]] == Plain("y");
  }

  lemma HoayGlide()
    ensures ExtractGlide(Plain("oa")) == (Some(Plain("o")), Plain("a"))
  {
    Untoned("oa");
    assert [Plain("oa")[0]] == Plain("o") && [Plain("oa")[1]] == Plain("a");
  }

  lemma HoaySplit()
    ensures SplitRime(Some(Plain("h")), Plain("oay"), None) == HoaySegments
  {
    HoayNotUy();
    HoayOffglide();
    HoayGlide();
  }

  lemma HoayPieces()
    ensures Pieces(Some(Plain("h")), Plain("oay"), None)
  {
  }

  lemma HoaySegment()
    ensures LineBreakFree(HoayText) && Segment(HoayText) == Ok(HoaySegments)
  {
    HoayInitial();
    HoaySplit();
    HoayPieces();
    SegmentOf(HoayText, Some(Plain("h")), Plain("oay"), None);
  }

  lemma HoayDenormalizeFirst()
    ensures DenormGlide(DenormNucleus(DenormCoda(Hoay))) == Ok(Hoay.(glide := Some(Plain("o")), nucleus := Some(Plain("ă")), coda := Some(Plain("y"))))
  {
    Untoned("aw");
    Untoned("h");
    Untoned("i");
    Untoned("o");
    Untoned("w");
    Untoned("y");
    Untoned("ă");
    var x1 := Hoay.(coda := Some(Plain("y")));
    assert DenormCoda(Hoay) == x1;
    var x2 := Hoay.(nucleus := Some(Plain("ă")), coda := Some(Plain("y")));
    assert DenormNucleus(x1) == x2;
    var x3 := Hoay.(glide := Some(Plain("o")), nucleus := Some(Plain("ă")), coda := Some(Plain("y")));
    assert DenormGlide(x2) == Ok(x3);
  }

  lemma HoayDenormalizeInitial()
    ensures DenormInitial(Hoay.(glide := Some(Plain("o")), nucleus := Some(Plain("ă")), coda := Some(Plain("y")))) == Ok(Hoay.(glide := Some(Plain("o")), nucleus := Some(Plain("ă")), coda := Some(Plain("y"))))
  {
    var y := Hoay.(glide := Some(Plain("o")), nucleus := Some(Plain("ă")), coda := Some(Plain("y")));
    Untoned("h");
    Untoned("o");
    Untoned("y");
    Untoned("ă");
    assert DenormInitial(y) == Ok(y);
  }

  lemma HoayDenormalizeSpelling()
    ensures DeduplicateI(DenormQ(RemoveShortA(Hoay.(glide := Some(Plain("o")), nucleus := Some(Plain("ă")), coda := Some(Plain("y")))))) == Hoay.(glide := Some(Plain("o")), nucleus := Some(Plain("a")), coda := Some(Plain("y")))
  {
    var y := Hoay.(glide := Some(Plain("o")), nucleus := Some(Plain("ă")), coda := Some(Plain("y")));
    Untoned("a");
    Untoned("h");
    Untoned("o");
    Untoned("y");
    Untoned("ă");
    var x1 := Hoay.(glide := Some(Plain("o")), nucleus := Some(Plain("a")), coda := Some(Plain("y")));
    assert RemoveShortA(y) == x1;
    assert DenormQ(x1) == x1;
    assert DeduplicateI(x1) == x1;
  }

  lemma HoayDenormalizeTone()
    ensures DenormTone(Hoay.(glide := Some(Plain("o")), nucleus := Some(Plain("a")), coda := Some(Plain("y")))) == HoaySegments
  {
    var y := Hoay.(glide := Some(Plain("o")), nucleus := Some(Plain("a")), coda := Some(Plain("y")));
    Untoned("a");
    Untoned("h");
    Untoned("o");
    Untoned("y");
    assert DenormTone(y) == y;
  }

  lemma HoayNormal()
    ensures Normal(Hoay)
  {
    Untoned("aw");
    Untoned("h");
    Untoned("i");
    Untoned("w");
  }

  lemma HoayRoundTrip()
    ensures ParseVietnamese(HoayText) == Ok(Hoay) && EmitVietnamese(Hoay) == Ok(HoayText)
  {
    HoaySegment();
    HoayDenormalizeFirst();
    HoayDenormalizeInitial();
    HoayDenormalizeSpelling();
    HoayDenormalizeTone();
    DenormalizeThrough(Hoay, Hoay.(glide := Some(Plain("o")), nucleus := Some(Plain("ă")), coda := Some(Plain("y"))), Hoay.(glide := Some(Plain("o")), nucleus := Some(Plain("ă")), coda := Some(Plain("y"))), HoaySegments);
    HoayNormal();
    NormalizeUndoesDenormalize(Hoay);
    RoundTrip(HoayText, HoaySegments, Hoay);
  }

  // khoẻ is (kh, w, e, -, r): the tone mark on the nucleus goes to the tone slot, and
  // comes back on the first letter of the nucleus when there is no coda.

  const KhoeText := Plain("kh") + Marked("o", 'e', R, "")
  const KhoeSegments := Slots(Some(Plain("kh")), Some(Plain("o")), Some(Marked("", 'e', R, "")), None, None)
  const Khoe := Slots(Some(Plain("kh")), Some(Plain("w")), Some(Plain("e")), None, Some(R))

  lemma KhoeInitial()
    ensures MatchInitial(KhoeText) == Some(Plain("kh"))
  {
    InitialHeads();
    forall j | 0 <= j < 14 ensures !IsPrefix(Initials[j], KhoeText) {
      assert Heads[j] != 'k';
      Mismatch(Initials[j], KhoeText, 0);
    }
    FirstPrefixAt(Initials, KhoeText, 14, 0);
  }

  lemma KhoeNotUy()
    ensures !UyRime(Marked("o", 'e', R, ""))
  {
  }

  lemma KhoeOffglide()
    ensures ExtractSemivowel(Marked("o", 'e', R, "")) == (None, Marked("o", 'e', R, ""))
  {
  }

  lemma KhoeGlide()
    ensures ExtractGlide(Marked("o", 'e', R, "")) == (Some(Plain("o")), Marked("", 'e', R, ""))
  {
    MarkedTone("o", 'e', R, "");
    assert [Marked("o", 'e', R, "")[0]] == Plain("o") && [Marked("o", 'e', R, "")[1]] == Marked("", 'e', R, "");
  }

  lemma KhoeSplit()
    ensures SplitRime(Some(Plain("kh")), Marked("o", 'e', R, ""), None) == KhoeSegments
  {
    KhoeNotUy();
    KhoeOffglide();
    KhoeGlide();
  }

  lemma KhoePieces()
    ensures Pieces(Some(Plain("kh")), Marked("o", 'e', R, ""), None)
  {
  }

  lemma KhoeSegment()
    ensures LineBreakFree(KhoeText) && Segment(KhoeText) == Ok(KhoeSegments)
  {
    KhoeInitial();
    KhoeSplit();
    KhoePieces();
    SegmentOf(KhoeText, Some(Plain("kh")), Marked("o", 'e', R, ""), None);
  }

  lemma KhoeDenormalizeFirst()
    ensures DenormGlide(DenormNucleus(DenormCoda(Khoe))) == Ok(Khoe.(glide := Some(Plain("o"))))
  {
    Untoned("e");
    Untoned("kh");
    Untoned("o");
    Untoned("w");
    assert DenormCoda(Khoe) == Khoe;
    assert DenormNucleus(Khoe) == Khoe;
    var x1 := Khoe.(glide := Some(Plain("o")));
    assert DenormGlide(Khoe) == Ok(x1);
  }

  lemma KhoeDenormalizeInitial()
    ensures DenormInitial(Khoe.(glide := Some(Plain("o")))) == Ok(Khoe.(glide := Some(Plain("o"))))
  {
    var y := Khoe.(glide := Some(Plain("o")));
    Untoned("e");
    Untoned("kh");
    Untoned("o");
    assert DenormInitial(y) == Ok(y);
  }

  lemma KhoeDenormalizeSpelling()
    ensures DeduplicateI(DenormQ(RemoveShortA(Khoe.(glide := Some(Plain("o")))))) == Khoe.(glide := Some(Plain("o")))
  {
    var y := Khoe.(glide := Some(Plain("o")));
    Untoned("e");
    Untoned("kh");
    Untoned("o");
    assert RemoveShortA(y) == y;
    assert DenormQ(y) == y;
    assert DeduplicateI(y) == y;
  }

  lemma KhoeDenormalizeTone()
    ensures DenormTone(Khoe.(glide := Some(Plain("o")))) == KhoeSegments
  {
    var y := Khoe.(glide := Some(Plain("o")));
    Untoned("e");
    Untoned("kh");
    Untoned("o");
    MarkedTone("", 'e', R, "");
    MarkedByAddTone("", 'e', R, "", true);
    var x1 := Khoe.(glide := Some(Plain("o")), nucleus := Some(Marked("", 'e', R, "")), tone := None);
    assert DenormTone(y) == x1;
  }

  lemma KhoeNormal()
    ensures Normal(Khoe)
  {
    Untoned("e");
    Untoned("kh");
    Untoned("w");
  }

  lemma KhoeRoundTrip()
    ensures ParseVietnamese(KhoeText) == Ok(Khoe) && EmitVietnamese(Khoe) == Ok(KhoeText)
  {
    KhoeSegment();
    KhoeDenormalizeFirst();
    KhoeDenormalizeInitial();
    KhoeDenormalizeSpelling();
    KhoeDenormalizeTone();
    DenormalizeThrough(Khoe, Khoe.(glide := Some(Plain("o"))), Khoe.(glide := Some(Plain("o"))), KhoeSegments);
    KhoeNormal();
    NormalizeUndoesDenormalize(Khoe);
    RoundTrip(KhoeText, KhoeSegments, Khoe);
  }

  // nhoà is (nh, w, a, -, f).

  const NhoaText := Plain("nh") + Marked("o", 'a', F, "")
  const NhoaSegments := Slots(Some(Plain("nh")), Some(Plain("o")), Some(Marked("", 'a', F, "")), None, None)
  const Nhoa := Slots(Some(Plain("nh")), Some(Plain("w")), Some(Plain("a")), None, Some(F))

  lemma NhoaInitial()
    ensures MatchInitial(NhoaText) == Some(Plain("nh"))
  {
    InitialHeads();
    forall j | 0 <= j < 20 ensures !IsPrefix(Initials[j], NhoaText) {
      if j == 18 {
        Mismatch(Initials[18], NhoaText, 1);
      } else if j == 19 {
        Mismatch(Initials[19], NhoaText, 1);
      } else {
        assert Heads[j] != 'n';
        Mismatch(Initials[j], NhoaText, 0);
      }
    }
    FirstPrefixAt(Initials, NhoaText, 20, 0);
  }

  lemma NhoaNotUy()
    ensures !UyRime(Marked("o", 'a', F, ""))
  {
  }

  lemma NhoaOffglide()
    ensures ExtractSemivowel(Marked("o", 'a', F, "")) == (None, Marked("o", 'a', F, ""))
  {
  }

  lemma NhoaGlide()
    ensures ExtractGlide(Marked("o", 'a', F, "")) == (Some(Plain("o")), Marked("", 'a', F, ""))
  {
    MarkedTone("o", 'a', F, "");
    assert [Marked("o", 'a', F, "")[0]] == Plain("o") && [Marked("o", 'a', F, "")[1]] == Marked("", 'a', F, "");
  }

  lemma NhoaSplit()
    ensures SplitRime(Some(Plain("nh")), Marked("o", 'a', F, ""), None) == NhoaSegments
  {
    NhoaNotUy();
    NhoaOffglide();
    NhoaGlide();
  }

  lemma NhoaPieces()
    ensures Pieces(Some(Plain("nh")), Marked("o", 'a', F, ""), None)
  {
  }

  lemma NhoaSegment()
    ensures LineBreakFree(NhoaText) && Segment(NhoaText) == Ok(NhoaSegments)
  {
    NhoaInitial();
    NhoaSplit();
    NhoaPieces();
    SegmentOf(NhoaText, Some(Plain("nh")), Marked("o", 'a', F, ""), None);
  }

  lemma NhoaDenormalizeFirst()
    ensures DenormGlide(DenormNucleus(DenormCoda(Nhoa))) == Ok(Nhoa.(glide := Some(Plain("o"))))
  {
    Untoned("a");
    Untoned("nh");
    Untoned("o");
    Untoned("w");
    assert DenormCoda(Nhoa) == Nhoa;
    assert DenormNucleus(Nhoa) == Nhoa;
    var x1 := Nhoa.(glide := Some(Plain("o")));
    assert DenormGlide(Nhoa) == Ok(x1);
  }

  lemma NhoaDenormalizeInitial()
    ensures DenormInitial(Nhoa.(glide := Some(Plain("o")))) == Ok(Nhoa.(glide := Some(Plain("o"))))
  {
    var y := Nhoa.(glide := Some(Plain("o")));
    Untoned("a");
    Untoned("nh");
    Untoned("o");
    assert DenormInitial(y) == Ok(y);
  }

  lemma NhoaDenormalizeSpelling()
    ensures DeduplicateI(DenormQ(RemoveShortA(Nhoa.(glide := Some(Plain("o")))))) == Nhoa.(glide := Some(Plain("o")))
  {
    var y := Nhoa.(glide := Some(Plain("o")));
    Untoned("a");
    Untoned("nh");
    Untoned("o");
    assert RemoveShortA(y) == y;
    assert DenormQ(y) == y;
    assert DeduplicateI(y) == y;
  }

  lemma NhoaDenormalizeTone()
    ensures DenormTone(Nhoa.(glide := Some(Plain("o")))) == NhoaSegments
  {
    var y := Nhoa.(glide := Some(Plain("o")));
    Untoned("a");
    Untoned("nh");
    Untoned("o");
    MarkedTone("", 'a', F, "");
    MarkedByAddTone("", 'a', F, "", true);
    var x1 := Nhoa.(glide := Some(Plain("o")), nucleus := Some(Marked("", 'a', F, "")), tone := None);
    assert DenormTone(y) == x1;
  }

  lemma NhoaNormal()
    ensures Normal(Nhoa)
  {
    Untoned("a");
    Untoned("nh");
    Untoned("w");
  }

  lemma NhoaRoundTrip()
    ensures ParseVietnamese(NhoaText) == Ok(Nhoa) && EmitVietnamese(Nhoa) == Ok(NhoaText)
  {
    NhoaSegment();
    NhoaDenormalizeFirst();
    NhoaDenormalizeInitial();
    NhoaDenormalizeSpelling();
    NhoaDenormalizeTone();
    DenormalizeThrough(Nhoa, Nhoa.(glide := Some(Plain("o"))), Nhoa.(glide := Some(Plain("o"))), NhoaSegments);
    NhoaNormal();
    NormalizeUndoesDenormalize(Nhoa);
    RoundTrip(NhoaText, NhoaSegments, Nhoa);
  }

  // nguy is (ng, w, i, -, -): uy is the glide u and the nucleus y, which is i.

  const NguyText := Plain("ng") + Plain("uy")
  const NguySegments := Slots(Some(Plain("ng")), Some(Plain("u")), Some(Plain("y")), None, None)
  const Nguy := Slots(Some(Plain("ng")), Some(Plain("w")), Some(Plain("i")), None, None)

  lemma NguyInitial()
    ensures MatchInitial(NguyText) == Some(Plain("ng"))
  {
    InitialHeads();
    forall j | 0 <= j < 19 ensures !IsPrefix(Initials[j], NguyText) {
      if j == 18 {
        Mismatch(Initials[18], NguyText, 2);
      } else {
        assert Heads[j] != 'n';
        Mismatch(Initials[j], NguyText, 0);
      }
    }
    FirstPrefixAt(Initials, NguyText, 19, 0);
  }

  lemma NguyOffglide()
    ensures ExtractSemivowel(Plain("y")) == (None, Plain("y"))
  {
  }

  lemma NguySplit()
    ensures SplitRime(Some(Plain("ng")), Plain("uy"), None) == NguySegments
  {
    NguyOffglide();
    assert UyRime(Plain("uy"));
    assert [Plain("uy")[0]] == Plain("u");
    assert Plain("uy")[1..] == Plain("y");
  }

  lemma NguyPieces()
    ensures Pieces(Some(Plain("ng")), Plain("uy"), None)
  {
  }

  lemma NguySegment()
    ensures LineBreakFree(NguyText) && Segment(NguyText) == Ok(NguySegments)
  {
    NguyInitial();
    NguySplit();
    NguyPieces();
    SegmentOf(NguyText, Some(Plain("ng")), Plain("uy"), None);
  }

  lemma NguyDenormalizeFirst()
    ensures DenormGlide(DenormNucleus(DenormCoda(Nguy))) == Ok(Nguy.(glide := Some(Plain("u")), nucleus := Some(Plain("y"))))
  {
    Untoned("i");
    Untoned("ng");
    Untoned("u");
    Untoned("w");
    Untoned("y");
    assert DenormCoda(Nguy) == Nguy;
    var x1 := Nguy.(nucleus := Some(Plain("y")));
    assert DenormNucleus(Nguy) == x1;
    var x2 := Nguy.(glide := Some(Plain("u")), nucleus := Some(Plain("y")));
    assert DenormGlide(x1) == Ok(x2);
  }

  lemma NguyDenormalizeInitial()
    ensures DenormInitial(Nguy.(glide := Some(Plain("u")), nucleus := Some(Plain("y")))) == Ok(Nguy.(glide := Some(Plain("u")), nucleus := Some(Plain("y"))))
  {
    var y := Nguy.(glide := Some(Plain("u")), nucleus := Some(Plain("y")));
    Untoned("ng");
    Untoned("u");
    Untoned("y");
    assert DenormInitial(y) == Ok(y);
  }

  lemma NguyDenormalizeSpelling()
    ensures DeduplicateI(DenormQ(RemoveShortA(Nguy.(glide := Some(Plain("u")), nucleus := Some(Plain("y")))))) == Nguy.(glide := Some(Plain("u")), nucleus := Some(Plain("y")))
  {
    var y := Nguy.(glide := Some(Plain("u")), nucleus := Some(Plain("y")));
    Untoned("ng");
    Untoned("u");
    Untoned("y");
    assert RemoveShortA(y) == y;
    assert DenormQ(y) == y;
    assert DeduplicateI(y) == y;
  }

  lemma NguyDenormalizeTone()
    ensures DenormTone(Nguy.(glide := Some(Plain("u")), nucleus := Some(Plain("y")))) == NguySegments
  {
    var y := Nguy.(glide := Some(Plain("u")), nucleus := Some(Plain("y")));
    Untoned("ng");
    Untoned("u");
    Untoned("y");
    assert DenormTone(y) == y;
  }

  lemma NguyNormal()
    ensures Normal(Nguy)
  {
    Untoned("i");
    Untoned("ng");
    Untoned("w");
  }

  lemma NguyRoundTrip()
    ensures ParseVietnamese(NguyText) == Ok(Nguy) && EmitVietnamese(Nguy) == Ok(NguyText)
  {
    NguySegment();
    NguyDenormalizeFirst();
    NguyDenormalizeInitial();
    NguyDenormalizeSpelling();
    NguyDenormalizeTone();
    DenormalizeThrough(Nguy, Nguy.(glide := Some(Plain("u")), nucleus := Some(Plain("y"))), Nguy.(glide := Some(Plain("u")), nucleus := Some(Plain("y"))), NguySegments);
    NguyNormal();
    NormalizeUndoesDenormalize(Nguy);
    RoundTrip(NguyText, NguySegments, Nguy);
  }

  // thuê is (th, w, ee, -, -): the glide before ê is written u.

  const ThueText := Plain("th") + Plain("uê")
  const ThueSegments := Slots(Some(Plain("th")), Some(Plain("u")), Some(Plain("ê")), None, None)
  const Thue := Slots(Some(Plain("th")), Some(Plain("w")), Some(Plain("ee")), None, None)

  lemma ThueInitial()
    ensures MatchInitial(ThueText) == Some(Plain("th"))
  {
    InitialHeads();
    forall j | 0 <= j < 26 ensures !IsPrefix(Initials[j], ThueText) {
      assert Heads[j] != 't';
      Mismatch(Initials[j], ThueText, 0);
    }
    FirstPrefixAt(Initials, ThueText, 26, 0);
  }

  lemma ThueNotUy()
    ensures !UyRime(Plain("uê"))
  {
  }

  lemma ThueOffglide()
    ensures ExtractSemivowel(Plain("uê")) == (None, Plain("uê"))
  {
  }

  lemma ThueGlide()
    ensures ExtractGlide(Plain("uê")) == (Some(Plain("u")), Plain("ê"))
  {
    Untoned("uê");
    assert [Plain("uê")[0]] == Plain("u") && [Plain("uê")[1]] == Plain("ê");
  }

  lemma ThueSplit()
    ensures SplitRime(Some(Plain("th")), Plain("uê"), None) == ThueSegments
  {
    ThueNotUy();
    ThueOffglide();
    ThueGlide();
  }

  lemma ThuePieces()
    ensures Pieces(Some(Plain("th")), Plain("uê"), None)
  {
  }

  lemma ThueSegment()
    ensures LineBreakFree(ThueText) && Segment(ThueText) == Ok(ThueSegments)
  {
    ThueInitial();
    ThueSplit();
    ThuePieces();
    SegmentOf(ThueText, Some(Plain("th")), Plain("uê"), None);
  }

  lemma ThueDenormalizeFirst()
    ensures DenormGlide(DenormNucleus(DenormCoda(Thue))) == Ok(Thue.(glide := Some(Plain("u")), nucleus := Some(Plain("ê"))))
  {
    Untoned("ee");
    Untoned("th");
    Untoned("u");
    Untoned("w");
    Untoned("ê");
    assert DenormCoda(Thue) == Thue;
    var x1 := Thue.(nucleus := Some(Plain("ê")));
    assert DenormNucleus(Thue) == x1;
    var x2 := Thue.(glide := Some(Plain("u")), nucleus := Some(Plain("ê")));
    assert DenormGlide(x1) == Ok(x2);
  }

  lemma ThueDenormalizeInitial()
    ensures DenormInitial(Thue.(glide := Some(Plain("u")), nucleus := Some(Plain("ê")))) == Ok(Thue.(glide := Some(Plain("u")), nucleus := Some(Plain("ê"))))
  {
    var y := Thue.(glide := Some(Plain("u")), nucleus := Some(Plain("ê")));
    Untoned("th");
    Untoned("u");
    Untoned("ê");
    assert DenormInitial(y) == Ok(y);
  }

  lemma ThueDenormalizeSpelling()
    ensures DeduplicateI(DenormQ(RemoveShortA(Thue.(glide := Some(Plain("u")), nucleus := Some(Plain("ê")))))) == Thue.(glide := Some(Plain("u")), nucleus := Some(Plain("ê")))
  {
    var y := Thue.(glide := Some(Plain("u")), nucleus := Some(Plain("ê")));
    Untoned("th");
    Untoned("u");
    Untoned("ê");
    assert RemoveShortA(y) == y;
    assert DenormQ(y) == y;
    assert DeduplicateI(y) == y;
  }

  lemma ThueDenormalizeTone()
    ensures DenormTone(Thue.(glide := Some(Plain("u")), nucleus := Some(Plain("ê")))) == ThueSegments
  {
    var y := Thue.(glide := Some(Plain("u")), nucleus := Some(Plain("ê")));
    Untoned("th");
    Untoned("u");
    Untoned("ê");
    assert DenormTone(y) == y;
  }

  lemma ThueNormal()
    ensures Normal(Thue)
  {
    Untoned("ee");
    Untoned("th");
    Untoned("w");
  }

  lemma ThueRoundTrip()
    ensures ParseVietnamese(ThueText) == Ok(Thue) && EmitVietnamese(Thue) == Ok(ThueText)
  {
    ThueSegment();
    ThueDenormalizeFirst();
    ThueDenormalizeInitial();
    ThueDenormalizeSpelling();
    ThueDenormalizeTone();
    DenormalizeThrough(Thue, Thue.(glide := Some(Plain("u")), nucleus := Some(Plain("ê"))), Thue.(glide := Some(Plain("u")), nucleus := Some(Plain("ê"))), ThueSegments);
    ThueNormal();
    NormalizeUndoesDenormalize(Thue);
    RoundTrip(ThueText, ThueSegments, Thue);
  }

  // thuở is (th, w, ow, -, r).

  const ThuoText := Plain("th") + Marked("u", 'ơ', R, "")
  const ThuoSegments := Slots(Some(Plain("th")), Some(Plain("u")), Some(Marked("", 'ơ', R, "")), None, None)
  const Thuo := Slots(Some(Plain("th")), Some(Plain("w")), Some(Plain("ow")), None, Some(R))

  lemma ThuoInitial()
    ensures MatchInitial(ThuoText) == Some(Plain("th"))
  {
    InitialHeads();
    forall j | 0 <= j < 26 ensures !IsPrefix(Initials[j], ThuoText) {
      assert Heads[j] != 't';
      Mismatch(Initials[j], ThuoText, 0);
    }
    FirstPrefixAt(Initials, ThuoText, 26, 0);
  }

  lemma ThuoNotUy()
    ensures !UyRime(Marked("u", 'ơ', R, ""))
  {
  }

  lemma ThuoOffglide()
    ensures ExtractSemivowel(Marked("u", 'ơ', R, "")) == (None, Marked("u", 'ơ', R, ""))
  {
  }

  lemma ThuoGlide()
    ensures ExtractGlide(Marked("u", 'ơ', R, "")) == (Some(Plain("u")), Marked("", 'ơ', R, ""))
  {
    MarkedTone("u", 'ơ', R, "");
    assert [Marked("u", 'ơ', R, "")[0]] == Plain("u") && [Marked("u", 'ơ', R, "")[1]] == Marked("", 'ơ', R, "");
  }

  lemma ThuoSplit()
    ensures SplitRime(Some(Plain("th")), Marked("u", 'ơ', R, ""), None) == ThuoSegments
  {
    ThuoNotUy();
    ThuoOffglide();
    ThuoGlide();
  }

  lemma ThuoPieces()
    ensures Pieces(Some(Plain("th")), Marked("u", 'ơ', R, ""), None)
  {
  }

  lemma ThuoSegment()
    ensures LineBreakFree(ThuoText) && Segment(ThuoText) == Ok(ThuoSegments)
  {
    ThuoInitial();
    ThuoSplit();
    ThuoPieces();
    SegmentOf(ThuoText, Some(Plain("th")), Marked("u", 'ơ', R, ""), None);
  }

  lemma ThuoDenormalizeFirst()
    ensures DenormGlide(DenormNucleus(DenormCoda(Thuo))) == Ok(Thuo.(glide := Some(Plain("u")), nucleus := Some(Plain("ơ"))))
  {
    Untoned("ow");
    Untoned("th");
    Untoned("u");
    Untoned("w");
    Untoned("ơ");
    assert DenormCoda(Thuo) == Thuo;
    var x1 := Thuo.(nucleus := Some(Plain("ơ")));
    assert DenormNucleus(Thuo) == x1;
    var x2 := Thuo.(glide := Some(Plain("u")), nucleus := Some(Plain("ơ")));
    assert DenormGlide(x1) == Ok(x2);
  }

  lemma ThuoDenormalizeInitial()
    ensures DenormInitial(Thuo.(glide := Some(Plain("u")), nucleus := Some(Plain("ơ")))) == Ok(Thuo.(glide := Some(Plain("u")), nucleus := Some(Plain("ơ"))))
  {
    var y := Thuo.(glide := Some(Plain("u")), nucleus := Some(Plain("ơ")));
    Untoned("th");
    Untoned("u");
    Untoned("ơ");
    assert DenormInitial(y) == Ok(y);
  }

  lemma ThuoDenormalizeSpelling()
    ensures DeduplicateI(DenormQ(RemoveShortA(Thuo.(glide := Some(Plain("u")), nucleus := Some(Plain("ơ")))))) == Thuo.(glide := Some(Plain("u")), nucleus := Some(Plain("ơ")))
  {
    var y := Thuo.(glide := Some(Plain("u")), nucleus := Some(Plain("ơ")));
    Untoned("th");
    Untoned("u");
    Untoned("ơ");
    assert RemoveShortA(y) == y;
    assert DenormQ(y) == y;
    assert DeduplicateI(y) == y;
  }

  lemma ThuoDenormalizeTone()
    ensures DenormTone(Thuo.(glide := Some(Plain("u")), nucleus := Some(Plain("ơ")))) == ThuoSegments
  {
    var y := Thuo.(glide := Some(Plain("u")), nucleus := Some(Plain("ơ")));
    Untoned("th");
    Untoned("u");
    Untoned("ơ");
    MarkedTone("", 'ơ', R, "");
    MarkedByAddTone("", 'ơ', R, "", true);
    var x1 := Thuo.(glide := Some(Plain("u")), nucleus := Some(Marked("", 'ơ', R, "")), tone := None);
    assert DenormTone(y) == x1;
  }

  lemma ThuoNormal()
    ensures Normal(Thuo)
  {
    Untoned("ow");
    Untoned("th");
    Untoned("w");
  }

  lemma ThuoRoundTrip()
    ensures ParseVietnamese(ThuoText) == Ok(Thuo) && EmitVietnamese(Thuo) == Ok(ThuoText)
  {
    ThuoSegment();
    ThuoDenormalizeFirst();
    ThuoDenormalizeInitial();
    ThuoDenormalizeSpelling();
    ThuoDenormalizeTone();
    DenormalizeThrough(Thuo, Thuo.(glide := Some(Plain("u")), nucleus := Some(Plain("ơ"))), Thuo.(glide := Some(Plain("u")), nucleus := Some(Plain("ơ"))), ThuoSegments);
    ThuoNormal();
    NormalizeUndoesDenormalize(Thuo);
    RoundTrip(ThuoText, ThuoSegments, Thuo);
  }

  // khuấy is (kh, w, aa, i, s): the offglide y after â is the coda i, and with a coda
  // the tone mark is written on the last letter of the nucleus.

  const KhuayText := Plain("kh") + Marked("u", 'â', S, "y")
  const KhuaySegments := Slots(Some(Plain("kh")), Some(Plain("u")), Some(Marked("", 'â', S, "")), Some(Plain("y")), None)
  const Khuay := Slots(Some(Plain("kh")), Some(Plain("w")), Some(Plain("aa")), Some(Plain("i")), Some(S))

  lemma KhuayInitial()
    ensures MatchInitial(KhuayText) == Some(Plain("kh"))
  {
    InitialHeads();
    forall j | 0 <= j < 14 ensures !IsPrefix(Initials[j], KhuayText) {
      assert Heads[j] != 'k';
      Mismatch(Initials[j], KhuayText, 0);
    }
    FirstPrefixAt(Initials, KhuayText, 14, 0);
  }

  lemma KhuayNotUy()
    ensures !UyRime(Marked("u", 'â', S, "y"))
  {
  }

  lemma KhuayOffglide()
    ensures ExtractSemivowel(Marked("u", 'â', S, "y")) == (Some(Plain("y")), Marked("u", 'â', S, ""))
  {
    assert Marked("u", 'â', S, "y")[..2] == Marked("u", 'â', S, "");
    assert [Marked("u", 'â', S, "y")[2]] == Plain("y");
  }

  lemma KhuayGlide()
    ensures ExtractGlide(Marked("u", 'â', S, "")) == (Some(Plain("u")), Marked("", 'â', S, ""))
  {
    MarkedTone("u", 'â', S, "");
    assert [Marked("u", 'â', S, "")[0]] == Plain("u") && [Marked("u", 'â', S, "")[1]] == Marked("", 'â', S, "");
  }

  lemma KhuaySplit()
    ensures SplitRime(Some(Plain("kh")), Marked("u", 'â', S, "y"), None) == KhuaySegments
  {
    KhuayNotUy();
    KhuayOffglide();
    KhuayGlide();
  }

  lemma KhuayPieces()
    ensures Pieces(Some(Plain("kh")), Marked("u", 'â', S, "y"), None)
  {
  }

  lemma KhuaySegment()
    ensures LineBreakFree(KhuayText) && Segment(KhuayText) == Ok(KhuaySegments)
  {
    KhuayInitial();
    KhuaySplit();
    KhuayPieces();
    SegmentOf(KhuayText, Some(Plain("kh")), Marked("u", 'â', S, "y"), None);
  }

  lemma KhuayDenormalizeFirst()
    ensures DenormGlide(DenormNucleus(DenormCoda(Khuay))) == Ok(Khuay.(glide := Some(Plain("u")), nucleus := Some(Plain("â")), coda := Some(Plain("y"))))
  {
    Untoned("aa");
    Untoned("i");
    Untoned("kh");
    Untoned("u");
    Untoned("w");
    Untoned("y");
    Untoned("â");
    var x1 := Khuay.(coda := Some(Plain("y")));
    assert DenormCoda(Khuay) == x1;
    var x2 := Khuay.(nucleus := Some(Plain("â")), coda := Some(Plain("y")));
    assert DenormNucleus(x1) == x2;
    var x3 := Khuay.(glide := Some(Plain("u")), nucleus := Some(Plain("â")), coda := Some(Plain("y")));
    assert DenormGlide(x2) == Ok(x3);
  }

  lemma KhuayDenormalizeInitial()
    ensures DenormInitial(Khuay.(glide := Some(Plain("u")), nucleus := Some(Plain("â")), coda := Some(Plain("y")))) == Ok(Khuay.(glide := Some(Plain("u")), nucleus := Some(Plain("â")), coda := Some(Plain("y"))))
  {
    var y := Khuay.(glide := Some(Plain("u")), nucleus := Some(Plain("â")), coda := Some(Plain("y")));
    Untoned("kh");
    Untoned("u");
    Untoned("y");
    Untoned("â");
    assert DenormInitial(y) == Ok(y);
  }

  lemma KhuayDenormalizeSpelling()
    ensures DeduplicateI(DenormQ(RemoveShortA(Khuay.(glide := Some(Plain("u")), nucleus := Some(Plain("â")), coda := Some(Plain("y")))))) == Khuay.(glide := Some(Plain("u")), nucleus := Some(Plain("â")), coda := Some(Plain("y")))
  {
    var y := Khuay.(glide := Some(Plain("u")), nucleus := Some(Plain("â")), coda := Some(Plain("y")));
    Untoned("kh");
    Untoned("u");
    Untoned("y");
    Untoned("â");
    assert RemoveShortA(y) == y;
    assert DenormQ(y) == y;
    assert DeduplicateI(y) == y;
  }

  lemma KhuayDenormalizeTone()
    ensures DenormTone(Khuay.(glide := Some(Plain("u")), nucleus := Some(Plain("â")), coda := Some(Plain("y")))) == KhuaySegments
  {
    var y := Khuay.(glide := Some(Plain("u")), nucleus := Some(Plain("â")), coda := Some(Plain("y")));
    Untoned("kh");
    Untoned("u");
    Untoned("y");
    Untoned("â");
    MarkedTone("", 'â', S, "");
    MarkedByAddTone("", 'â', S, "", false);
    var x1 := Khuay.(glide := Some(Plain("u")), nucleus := Some(Marked("", 'â', S, "")), coda := Some(Plain("y")), tone := None);
    assert DenormTone(y) == x1;
  }

  lemma KhuayNormal()
    ensures Normal(Khuay)
  {
    Untoned("aa");
    Untoned("i");
    Untoned("kh");
    Untoned("w");
  }

  lemma KhuayRoundTrip()
    ensures ParseVietnamese(KhuayText) == Ok(Khuay) && EmitVietnamese(Khuay) == Ok(KhuayText)
  {
    KhuaySegment();
    KhuayDenormalizeFirst();
    KhuayDenormalizeInitial();
    KhuayDenormalizeSpelling();
    KhuayDenormalizeTone();
    DenormalizeThrough(Khuay, Khuay.(glide := Some(Plain("u")), nucleus := Some(Plain("â")), coda := Some(Plain("y"))), Khuay.(glide := Some(Plain("u")), nucleus := Some(Plain("â")), coda := Some(Plain("y"))), KhuaySegments);
    KhuayNormal();
    NormalizeUndoesDenormalize(Khuay);
    RoundTrip(KhuayText, KhuaySegments, Khuay);
  }

  // khuya is (kh, w, ia, -, -): ya after a glide is the diphthong ia.

  const KhuyaText := Plain("kh") + Plain("uya")
  const KhuyaSegments := Slots(Some(Plain("kh")), Some(Plain("u")), Some(Plain("ya")), None, None)
  const Khuya := Slots(Some(Plain("kh")), Some(Plain("w")), Some(Plain("ia")), None, None)

  lemma KhuyaInitial()
    ensures MatchInitial(KhuyaText) == Some(Plain("kh"))
  {
    InitialHeads();
    forall j | 0 <= j < 14 ensures !IsPrefix(Initials[j], KhuyaText) {
      assert Heads[j] != 'k';
      Mismatch(Initials[j], KhuyaText, 0);
    }
    FirstPrefixAt(Initials, KhuyaText, 14, 0);
  }

  lemma KhuyaOffglide()
    ensures ExtractSemivowel(Plain("ya")) == (None, Plain("ya"))
  {
  }

  lemma KhuyaSplit()
    ensures SplitRime(Some(Plain("kh")), Plain("uya"), None) == KhuyaSegments
  {
    KhuyaOffglide();
    assert UyRime(Plain("uya"));
    assert [Plain("uya")[0]] == Plain("u");
    assert Plain("uya")[1..] == Plain("ya");
  }

  lemma KhuyaPieces()
    ensures Pieces(Some(Plain("kh")), Plain("uya"), None)
  {
  }

  lemma KhuyaSegment()
    ensures LineBreakFree(KhuyaText) && Segment(KhuyaText) == Ok(KhuyaSegments)
  {
    KhuyaInitial();
    KhuyaSplit();
    KhuyaPieces();
    SegmentOf(KhuyaText, Some(Plain("kh")), Plain("uya"), None);
  }

  lemma KhuyaDenormalizeFirst()
    ensures DenormGlide(DenormNucleus(DenormCoda(Khuya))) == Ok(Khuya.(glide := Some(Plain("u")), nucleus := Some(Plain("ya"))))
  {
    Untoned("ia");
    Untoned("kh");
    Untoned("u");
    Untoned("w");
    Untoned("ya");
    assert DenormCoda(Khuya) == Khuya;
    var x1 := Khuya.(nucleus := Some(Plain("ya")));
    assert DenormNucleus(Khuya) == x1;
    var x2 := Khuya.(glide := Some(Plain("u")), nucleus := Some(Plain("ya")));
    assert DenormGlide(x1) == Ok(x2);
  }

  lemma KhuyaDenormalizeInitial()
    ensures DenormInitial(Khuya.(glide := Some(Plain("u")), nucleus := Some(Plain("ya")))) == Ok(Khuya.(glide := Some(Plain("u")), nucleus := Some(Plain("ya"))))
  {
    var y := Khuya.(glide := Some(Plain("u")), nucleus := Some(Plain("ya")));
    Untoned("kh");
    Untoned("u");
    Untoned("ya");
    assert DenormInitial(y) == Ok(y);
  }

  lemma KhuyaDenormalizeSpelling()
    ensures DeduplicateI(DenormQ(RemoveShortA(Khuya.(glide := Some(Plain("u")), nucleus := Some(Plain("ya")))))) == Khuya.(glide := Some(Plain("u")), nucleus := Some(Plain("ya")))
  {
    var y := Khuya.(glide := Some(Plain("u")), nucleus := Some(Plain("ya")));
    Untoned("kh");
    Untoned("u");
    Untoned("ya");
    assert RemoveShortA(y) == y;
    assert DenormQ(y) == y;
    assert DeduplicateI(y) == y;
  }

  lemma KhuyaDenormalizeTone()
    ensures DenormTone(Khuya.(glide := Some(Plain("u")), nucleus := Some(Plain("ya")))) == KhuyaSegments
  {
    var y := Khuya.(glide := Some(Plain("u")), nucleus := Some(Plain("ya")));
    Untoned("kh");
    Untoned("u");
    Untoned("ya");
    assert DenormTone(y) == y;
  }

  lemma KhuyaNormal()
    ensures Normal(Khuya)
  {
    Untoned("ia");
    Untoned("kh");
    Untoned("w");
  }

  lemma KhuyaRoundTrip()
    ensures ParseVietnamese(KhuyaText) == Ok(Khuya) && EmitVietnamese(Khuya) == Ok(KhuyaText)
  {
    KhuyaSegment();
    KhuyaDenormalizeFirst();
    KhuyaDenormalizeInitial();
    KhuyaDenormalizeSpelling();
    KhuyaDenormalizeTone();
    DenormalizeThrough(Khuya, Khuya.(glide := Some(Plain("u")), nucleus := Some(Plain("ya"))), Khuya.(glide := Some(Plain("u")), nucleus := Some(Plain("ya"))), KhuyaSegments);
    KhuyaNormal();
    NormalizeUndoesDenormalize(Khuya);
    RoundTrip(KhuyaText, KhuyaSegments, Khuya);
  }

  // quyển is (k, w, ia, n, r): yê after qu is the diphthong ia, spelled yê again
  // between a glide and a coda.

  const QuyenText := Plain("qu") + Marked("y", 'ê', R, "") + Plain("n")
  const QuyenSegments := Slots(Some(Plain("qu")), None, Some(Marked("y", 'ê', R, "")), Some(Plain("n")), None)
  const Quyen := Slots(Some(Plain("k")), Some(Plain("w")), Some(Plain("ia")), Some(Plain("n")), Some(R))

  lemma QuyenInitial()
    ensures MatchInitial(QuyenText) == Some(Plain("qu"))
  {
    InitialHeads();
    forall j | 0 <= j < 23 ensures !IsPrefix(Initials[j], QuyenText) {
      assert Heads[j] != 'q';
      Mismatch(Initials[j], QuyenText, 0);
    }
    FirstPrefixAt(Initials, QuyenText, 23, 0);
  }

  lemma QuyenNotUy()
    ensures !UyRime(Marked("y", 'ê', R, ""))
  {
  }

  lemma QuyenGlide()
    ensures ExtractGlide(Marked("y", 'ê', R, "")) == (None, Marked("y", 'ê', R, ""))
  {
    MarkedTone("y", 'ê', R, "");
  }

  lemma QuyenSplit()
    ensures SplitRime(Some(Plain("qu")), Marked("y", 'ê', R, ""), Some(Plain("n"))) == QuyenSegments
  {
    QuyenNotUy();
    QuyenGlide();
  }

  lemma QuyenPieces()
    ensures Pieces(Some(Plain("qu")), Marked("y", 'ê', R, ""), Some(Plain("n")))
  {
  }

  lemma QuyenSegment()
    ensures LineBreakFree(QuyenText) && Segment(QuyenText) == Ok(QuyenSegments)
  {
    QuyenInitial();
    QuyenSplit();
    QuyenPieces();
    SegmentOf(QuyenText, Some(Plain("qu")), Marked("y", 'ê', R, ""), Some(Plain("n")));
  }

  lemma QuyenDenormalizeFirst()
    ensures DenormGlide(DenormNucleus(DenormCoda(Quyen))) == Ok(Quyen.(glide := Some(Plain("u")), nucleus := Some(Plain("yê"))))
  {
    Untoned("ia");
    Untoned("k");
    Untoned("n");
    Untoned("u");
    Untoned("w");
    Untoned("yê");
    assert DenormCoda(Quyen) == Quyen;
    var x1 := Quyen.(nucleus := Some(Plain("yê")));
    assert DenormNucleus(Quyen) == x1;
    var x2 := Quyen.(glide := Some(Plain("u")), nucleus := Some(Plain("yê")));
    assert DenormGlide(x1) == Ok(x2);
  }

  lemma QuyenDenormalizeInitial()
    ensures DenormInitial(Quyen.(glide := Some(Plain("u")), nucleus := Some(Plain("yê")))) == Ok(Quyen.(initial := Some(Plain("q")), glide := Some(Plain("u")), nucleus := Some(Plain("yê"))))
  {
    var y := Quyen.(glide := Some(Plain("u")), nucleus := Some(Plain("yê")));
    Untoned("k");
    Untoned("n");
    Untoned("q");
    Untoned("u");
    Untoned("yê");
    var x1 := Quyen.(initial := Some(Plain("q")), glide := Some(Plain("u")), nucleus := Some(Plain("yê")));
    assert DenormInitial(y) == Ok(x1);
  }

  lemma QuyenDenormalizeSpelling()
    ensures DeduplicateI(DenormQ(RemoveShortA(Quyen.(initial := Some(Plain("q")), glide := Some(Plain("u")), nucleus := Some(Plain("yê")))))) == Quyen.(initial := Some(Plain("qu")), glide := None, nucleus := Some(Plain("yê")))
  {
    var y := Quyen.(initial := Some(Plain("q")), glide := Some(Plain("u")), nucleus := Some(Plain("yê")));
    Untoned("n");
    Untoned("q");
    Untoned("qu");
    Untoned("u");
    Untoned("yê");
    assert RemoveShortA(y) == y;
    var x1 := Quyen.(initial := Some(Plain("qu")), glide := None, nucleus := Some(Plain("yê")));
    assert DenormQ(y) == x1;
    assert DeduplicateI(x1) == x1;
  }

  lemma QuyenDenormalizeTone()
    ensures DenormTone(Quyen.(initial := Some(Plain("qu")), glide := None, nucleus := Some(Plain("yê")))) == QuyenSegments
  {
    var y := Quyen.(initial := Some(Plain("qu")), glide := None, nucleus := Some(Plain("yê")));
    Untoned("n");
    Untoned("qu");
    Untoned("yê");
    MarkedTone("y", 'ê', R, "");
    MarkedByAddTone("y", 'ê', R, "", false);
    var x1 := Quyen.(initial := Some(Plain("qu")), glide := None, nucleus := Some(Marked("y", 'ê', R, "")), tone := None);
    assert DenormTone(y) == x1;
  }

  lemma QuyenNormal()
    ensures Normal(Quyen)
  {
    Untoned("ia");
    Untoned("k");
    Untoned("n");
    Untoned("w");
  }

  lemma QuyenRoundTrip()
    ensures ParseVietnamese(QuyenText) == Ok(Quyen) && EmitVietnamese(Quyen) == Ok(QuyenText)
  {
    QuyenSegment();
    QuyenDenormalizeFirst();
    QuyenDenormalizeInitial();
    QuyenDenormalizeSpelling();
    QuyenDenormalizeTone();
    DenormalizeThrough(Quyen, Quyen.(glide := Some(Plain("u")), nucleus := Some(Plain("yê"))), Quyen.(initial := Some(Plain("q")), glide := Some(Plain("u")), nucleus := Some(Plain("yê"))), QuyenSegments);
    QuyenNormal();
    NormalizeUndoesDenormalize(Quyen);
    RoundTrip(QuyenText, QuyenSegments, Quyen);
  }

  // hoằng is (h, w, aw, ng, f): ng is the longest coda, and ă is aw.

  const HoangText := Plain("h") + Marked("o", 'ă', F, "") + Plain("ng")
  const HoangSegments := Slots(Some(Plain("h")), Some(Plain("o")), Some(Marked("", 'ă', F, "")), Some(Plain("ng")), None)
  const Hoang := Slots(Some(Plain("h")), Some(Plain("w")), Some(Plain("aw")), Some(Plain("ng")), Some(F))

  lemma HoangInitial()
    ensures MatchInitial(HoangText) == Some(Plain("h"))
  {
    InitialHeads();
    forall j | 0 <= j < 13 ensures !IsPrefix(Initials[j], HoangText) {
      assert Heads[j] != 'h';
      Mismatch(Initials[j], HoangText, 0);
    }
    FirstPrefixAt(Initials, HoangText, 13, 0);
  }

  lemma HoangNotUy()
    ensures !UyRime(Marked("o", 'ă', F, ""))
  {
  }

  lemma HoangGlide()
    ensures ExtractGlide(Marked("o", 'ă', F, "")) == (Some(Plain("o")), Marked("", 'ă', F, ""))
  {
    MarkedTone("o", 'ă', F, "");
    assert [Marked("o", 'ă', F, "")[0]] == Plain("o") && [Marked("o", 'ă', F, "")[1]] == Marked("", 'ă', F, "");
  }

  lemma HoangSplit()
    ensures SplitRime(Some(Plain("h")), Marked("o", 'ă', F, ""), Some(Plain("ng"))) == HoangSegments
  {
    HoangNotUy();
    HoangGlide();
  }

  lemma HoangPieces()
    ensures Pieces(Some(Plain("h")), Marked("o", 'ă', F, ""), Some(Plain("ng")))
  {
  }

  lemma HoangSegment()
    ensures LineBreakFree(HoangText) && Segment(HoangText) == Ok(HoangSegments)
  {
    HoangInitial();
    HoangSplit();
    HoangPieces();
    SegmentOf(HoangText, Some(Plain("h")), Marked("o", 'ă', F, ""), Some(Plain("ng")));
  }

  lemma HoangDenormalizeFirst()
    ensures DenormGlide(DenormNucleus(DenormCoda(Hoang))) == Ok(Hoang.(glide := Some(Plain("o")), nucleus := Some(Plain("ă"))))
  {
    Untoned("aw");
    Untoned("h");
    Untoned("ng");
    Untoned("o");
    Untoned("w");
    Untoned("ă");
    assert DenormCoda(Hoang) == Hoang;
    var x1 := Hoang.(nucleus := Some(Plain("ă")));
    assert DenormNucleus(Hoang) == x1;
    var x2 := Hoang.(glide := Some(Plain("o")), nucleus := Some(Plain("ă")));
    assert DenormGlide(x1) == Ok(x2);
  }

  lemma HoangDenormalizeInitial()
    ensures DenormInitial(Hoang.(glide := Some(Plain("o")), nucleus := Some(Plain("ă")))) == Ok(Hoang.(glide := Some(Plain("o")), nucleus := Some(Plain("ă"))))
  {
    var y := Hoang.(glide := Some(Plain("o")), nucleus := Some(Plain("ă")));
    Untoned("h");
    Untoned("ng");
    Untoned("o");
    Untoned("ă");
    assert DenormInitial(y) == Ok(y);
  }

  lemma HoangDenormalizeSpelling()
    ensures DeduplicateI(DenormQ(RemoveShortA(Hoang.(glide := Some(Plain("o")), nucleus := Some(Plain("ă")))))) == Hoang.(glide := Some(Plain("o")), nucleus := Some(Plain("ă")))
  {
    var y := Hoang.(glide := Some(Plain("o")), nucleus := Some(Plain("ă")));
    Untoned("h");
    Untoned("ng");
    Untoned("o");
    Untoned("ă");
    assert RemoveShortA(y) == y;
    assert DenormQ(y) == y;
    assert DeduplicateI(y) == y;
  }

  lemma HoangDenormalizeTone()
    ensures DenormTone(Hoang.(glide := Some(Plain("o")), nucleus := Some(Plain("ă")))) == HoangSegments
  {
    var y := Hoang.(glide := Some(Plain("o")), nucleus := Some(Plain("ă")));
    Untoned("h");
    Untoned("ng");
    Untoned("o");
    Untoned("ă");
    MarkedTone("", 'ă', F, "");
    MarkedByAddTone("", 'ă', F, "", false);
    var x1 := Hoang.(glide := Some(Plain("o")), nucleus := Some(Marked("", 'ă', F, "")), tone := None);
    assert DenormTone(y) == x1;
  }

  lemma HoangNormal()
    ensures Normal(Hoang)
  {
    Untoned("aw");
    Untoned("h");
    Untoned("ng");
    Untoned("w");
  }

  lemma HoangRoundTrip()
    ensures ParseVietnamese(HoangText) == Ok(Hoang) && EmitVietnamese(Hoang) == Ok(HoangText)
  {
    HoangSegment();
    HoangDenormalizeFirst();
    HoangDenormalizeInitial();
    HoangDenormalizeSpelling();
    HoangDenormalizeTone();
    DenormalizeThrough(Hoang, Hoang.(glide := Some(Plain("o")), nucleus := Some(Plain("ă"))), Hoang.(glide := Some(Plain("o")), nucleus := Some(Plain("ă"))), HoangSegments);
    HoangNormal();
    NormalizeUndoesDenormalize(Hoang);
    RoundTrip(HoangText, HoangSegments, Hoang);
  }

  // huỷ is (h, w, i, -, r): the uy glide is found on the tone-free rime.

  const HuyText := Plain("h") + Marked("u", 'y', R, "")
  const HuySegments := Slots(Some(Plain("h")), Some(Plain("u")), Some(Marked("", 'y', R, "")), None, None)
  const Huy := Slots(Some(Plain("h")), Some(Plain("w")), Some(Plain("i")), None, Some(R))

  lemma HuyInitial()
    ensures MatchInitial(HuyText) == Some(Plain("h"))
  {
    InitialHeads();
    forall j | 0 <= j < 13 ensures !IsPrefix(Initials[j], HuyText) {
      assert Heads[j] != 'h';
      Mismatch(Initials[j], HuyText, 0);
    }
    FirstPrefixAt(Initials, HuyText, 13, 0);
  }

  lemma HuyOffglide()
    ensures ExtractSemivowel(Marked("", 'y', R, "")) == (None, Marked("", 'y', R, ""))
  {
  }

  lemma HuySplit()
    ensures SplitRime(Some(Plain("h")), Marked("u", 'y', R, ""), None) == HuySegments
  {
    HuyOffglide();
    assert UyRime(Marked("u", 'y', R, ""));
    assert [Marked("u", 'y', R, "")[0]] == Plain("u");
    assert Marked("u", 'y', R, "")[1..] == Marked("", 'y', R, "");
  }

  lemma HuyPieces()
    ensures Pieces(Some(Plain("h")), Marked("u", 'y', R, ""), None)
  {
  }

  lemma HuySegment()
    ensures LineBreakFree(HuyText) && Segment(HuyText) == Ok(HuySegments)
  {
    HuyInitial();
    HuySplit();
    HuyPieces();
    SegmentOf(HuyText, Some(Plain("h")), Marked("u", 'y', R, ""), None);
  }

  lemma HuyDenormalizeFirst()
    ensures DenormGlide(DenormNucleus(DenormCoda(Huy))) == Ok(Huy.(glide := Some(Plain("u")), nucleus := Some(Plain("y"))))
  {
    Untoned("h");
    Untoned("i");
    Untoned("u");
    Untoned("w");
    Untoned("y");
    assert DenormCoda(Huy) == Huy;
    var x1 := Huy.(nucleus := Some(Plain("y")));
    assert DenormNucleus(Huy) == x1;
    var x2 := Huy.(glide := Some(Plain("u")), nucleus := Some(Plain("y")));
    assert DenormGlide(x1) == Ok(x2);
  }

  lemma HuyDenormalizeInitial()
    ensures DenormInitial(Huy.(glide := Some(Plain("u")), nucleus := Some(Plain("y")))) == Ok(Huy.(glide := Some(Plain("u")), nucleus := Some(Plain("y"))))
  {
    var y := Huy.(glide := Some(Plain("u")), nucleus := Some(Plain("y")));
    Untoned("h");
    Untoned("u");
    Untoned("y");
    assert DenormInitial(y) == Ok(y);
  }

  lemma HuyDenormalizeSpelling()
    ensures DeduplicateI(DenormQ(RemoveShortA(Huy.(glide := Some(Plain("u")), nucleus := Some(Plain("y")))))) == Huy.(glide := Some(Plain("u")), nucleus := Some(Plain("y")))
  {
    var y := Huy.(glide := Some(Plain("u")), nucleus := Some(Plain("y")));
    Untoned("h");
    Untoned("u");
    Untoned("y");
    assert RemoveShortA(y) == y;
    assert DenormQ(y) == y;
    assert DeduplicateI(y) == y;
  }

  lemma HuyDenormalizeTone()
    ensures DenormTone(Huy.(glide := Some(Plain("u")), nucleus := Some(Plain("y")))) == HuySegments
  {
    var y := Huy.(glide := Some(Plain("u")), nucleus := Some(Plain("y")));
    Untoned("h");
    Untoned("u");
    Untoned("y");
    MarkedTone("", 'y', R, "");
    MarkedByAddTone("", 'y', R, "", true);
    var x1 := Huy.(glide := Some(Plain("u")), nucleus := Some(Marked("", 'y', R, "")), tone := None);
    assert DenormTone(y) == x1;
  }

  lemma HuyNormal()
    ensures Normal(Huy)
  {
    Untoned("h");
    Untoned("i");
    Untoned("w");
  }

  lemma HuyRoundTrip()
    ensures ParseVietnamese(HuyText) == Ok(Huy) && EmitVietnamese(Huy) == Ok(HuyText)
  {
    HuySegment();
    HuyDenormalizeFirst();
    HuyDenormalizeInitial();
    HuyDenormalizeSpelling();
    HuyDenormalizeTone();
    DenormalizeThrough(Huy, Huy.(glide := Some(Plain("u")), nucleus := Some(Plain("y"))), Huy.(glide := Some(Plain("u")), nucleus := Some(Plain("y"))), HuySegments);
    HuyNormal();
    NormalizeUndoesDenormalize(Huy);
    RoundTrip(HuyText, HuySegments, Huy);
  }

  // ý (given upper-case in the test, parsed lower-case) is (-, -, i, -, s): a y standing
  // alone is the vowel i, and i standing alone is written y.

  const YText := Marked("", 'y', S, "")
  const YSegments := Slots(None, None, Some(Marked("", 'y', S, "")), None, None)
  const Y := Slots(None, None, Some(Plain("i")), None, Some(S))

  lemma YInitial()
    ensures MatchInitial(YText) == None
  {
    InitialHeads();
    forall j | 0 <= j < |Initials| ensures !IsPrefix(Initials[j], YText) {
      assert Heads[j] != 'y';
      Mismatch(Initials[j], YText, 0);
    }
    FirstPrefixNone(Initials, YText, 0);
  }

  lemma YOffglide()
    ensures ExtractSemivowel(Marked("", 'y', S, "")) == (None, Marked("", 'y', S, ""))
  {
  }

  lemma YGlide()
    ensures ExtractGlide(Marked("", 'y', S, "")) == (None, Marked("", 'y', S, ""))
  {
    MarkedTone("", 'y', S, "");
  }

  lemma YSplit()
    ensures SplitRime(None, Marked("", 'y', S, ""), None) == YSegments
  {
    YOffglide();
    YGlide();
  }

  lemma YPieces()
    ensures Pieces(None, Marked("", 'y', S, ""), None)
  {
  }

  lemma YSegment()
    ensures LineBreakFree(YText) && Segment(YText) == Ok(YSegments)
  {
    YInitial();
    YSplit();
    YPieces();
    SegmentOf(YText, None, Marked("", 'y', S, ""), None);
  }

  lemma YDenormalizeFirst()
    ensures DenormGlide(DenormNucleus(DenormCoda(Y))) == Ok(Y.(nucleus := Some(Plain("y"))))
  {
    Untoned("i");
    Untoned("y");
    assert DenormCoda(Y) == Y;
    var x1 := Y.(nucleus := Some(Plain("y")));
    assert DenormNucleus(Y) == x1;
    assert DenormGlide(x1) == Ok(x1);
  }

  lemma YDenormalizeInitial()
    ensures DenormInitial(Y.(nucleus := Some(Plain("y")))) == Ok(Y.(nucleus := Some(Plain("y"))))
  {
    var y := Y.(nucleus := Some(Plain("y")));
    Untoned("y");
    assert DenormInitial(y) == Ok(y);
  }

  lemma YDenormalizeSpelling()
    ensures DeduplicateI(DenormQ(RemoveShortA(Y.(nucleus := Some(Plain("y")))))) == Y.(nucleus := Some(Plain("y")))
  {
    var y := Y.(nucleus := Some(Plain("y")));
    Untoned("y");
    assert RemoveShortA(y) == y;
    assert DenormQ(y) == y;
    assert DeduplicateI(y) == y;
  }

  lemma YDenormalizeTone()
    ensures DenormTone(Y.(nucleus := Some(Plain("y")))) == YSegments
  {
    var y := Y.(nucleus := Some(Plain("y")));
    Untoned("y");
    MarkedTone("", 'y', S, "");
    MarkedByAddTone("", 'y', S, "", true);
    var x1 := Y.(nucleus := Some(Marked("", 'y', S, "")), tone := None);
    assert DenormTone(y) == x1;
  }

  lemma YNormal()
    ensures Normal(Y)
  {
    Untoned("i");
  }

  lemma YRoundTrip()
    ensures ParseVietnamese(YText) == Ok(Y) && EmitVietnamese(Y) == Ok(YText)
  {
    YSegment();
    YDenormalizeFirst();
    YDenormalizeInitial();
    YDenormalizeSpelling();
    YDenormalizeTone();
    DenormalizeThrough(Y, Y.(nucleus := Some(Plain("y"))), Y.(nucleus := Some(Plain("y"))), YSegments);
    YNormal();
    NormalizeUndoesDenormalize(Y);
    RoundTrip(YText, YSegments, Y);
  }

  // khỉ is (kh, -, i, -, r): i after an initial stays i.

  const KhiText := Plain("kh") + Marked("", 'i', R, "")
  const KhiSegments := Slots(Some(Plain("kh")), None, Some(Marked("", 'i', R, "")), None, None)
  const Khi := Slots(Some(Plain("kh")), None, Some(Plain("i")), None, Some(R))

  lemma KhiInitial()
    ensures MatchInitial(KhiText) == Some(Plain("kh"))
  {
    InitialHeads();
    forall j | 0 <= j < 14 ensures !IsPrefix(Initials[j], KhiText) {
      assert Heads[j] != 'k';
      Mismatch(Initials[j], KhiText, 0);
    }
    FirstPrefixAt(Initials, KhiText, 14, 0);
  }

  lemma KhiOffglide()
    ensures ExtractSemivowel(Marked("", 'i', R, "")) == (None, Marked("", 'i', R, ""))
  {
  }

  lemma KhiGlide()
    ensures ExtractGlide(Marked("", 'i', R, "")) == (None, Marked("", 'i', R, ""))
  {
    MarkedTone("", 'i', R, "");
  }

  lemma KhiSplit()
    ensures SplitRime(Some(Plain("kh")), Marked("", 'i', R, ""), None) == KhiSegments
  {
    KhiOffglide();
    KhiGlide();
  }

  lemma KhiPieces()
    ensures Pieces(Some(Plain("kh")), Marked("", 'i', R, ""), None)
  {
  }

  lemma KhiSegment()
    ensures LineBreakFree(KhiText) && Segment(KhiText) == Ok(KhiSegments)
  {
    KhiInitial();
    KhiSplit();
    KhiPieces();
    SegmentOf(KhiText, Some(Plain("kh")), Marked("", 'i', R, ""), None);
  }

  lemma KhiDenormalizeFirst()
    ensures DenormGlide(DenormNucleus(DenormCoda(Khi))) == Ok(Khi)
  {
    Untoned("i");
    Untoned("kh");
    assert DenormCoda(Khi) == Khi;
    assert DenormNucleus(Khi) == Khi;
    assert DenormGlide(Khi) == Ok(Khi);
  }

  lemma KhiDenormalizeInitial()
    ensures DenormInitial(Khi) == Ok(Khi)
  {
    Untoned("i");
    Untoned("kh");
    assert DenormInitial(Khi) == Ok(Khi);
  }

  lemma KhiDenormalizeSpelling()
    ensures DeduplicateI(DenormQ(RemoveShortA(Khi))) == Khi
  {
    Untoned("i");
    Untoned("kh");
    assert RemoveShortA(Khi) == Khi;
    assert DenormQ(Khi) == Khi;
    assert DeduplicateI(Khi) == Khi;
  }

  lemma KhiDenormalizeTone()
    ensures DenormTone(Khi) == KhiSegments
  {
    Untoned("i");
    Untoned("kh");
    MarkedTone("", 'i', R, "");
    MarkedByAddTone("", 'i', R, "", true);
    var x1 := Khi.(nucleus := Some(Marked("", 'i', R, "")), tone := None);
    assert DenormTone(Khi) == x1;
  }

  lemma KhiNormal()
    ensures Normal(Khi)
  {
    Untoned("i");
    Untoned("kh");
  }

  lemma KhiRoundTrip()
    ensures ParseVietnamese(KhiText) == Ok(Khi) && EmitVietnamese(Khi) == Ok(KhiText)
  {
    KhiSegment();
    KhiDenormalizeFirst();
    KhiDenormalizeInitial();
    KhiDenormalizeSpelling();
    KhiDenormalizeTone();
    DenormalizeThrough(Khi, Khi, Khi, KhiSegments);
    KhiNormal();
    NormalizeUndoesDenormalize(Khi);
    RoundTrip(KhiText, KhiSegments, Khi);
  }

  // ca is (k, -, a, -, -): c is k, and k is written c before a.

  const CaText := Plain("c") + Plain("a")
  const CaSegments := Slots(Some(Plain("c")), None, Some(Plain("a")), None, None)
  const Ca := Slots(Some(Plain("k")), None, Some(Plain("a")), None, None)

  lemma CaInitial()
    ensures MatchInitial(CaText) == Some(Plain("c"))
  {
    InitialHeads();
    forall j | 0 <= j < 2 ensures !IsPrefix(Initials[j], CaText) {
      if j == 1 {
        Mismatch(Initials[1], CaText, 1);
      } else {
        assert Heads[j] != 'c';
        Mismatch(Initials[j], CaText, 0);
      }
    }
    FirstPrefixAt(Initials, CaText, 2, 0);
  }

  lemma CaOffglide()
    ensures ExtractSemivowel(Plain("a")) == (None, Plain("a"))
  {
  }

  lemma CaGlide()
    ensures ExtractGlide(Plain("a")) == (None, Plain("a"))
  {
    Untoned("a");
  }

  lemma CaSplit()
    ensures SplitRime(Some(Plain("c")), Plain("a"), None) == CaSegments
  {
    CaOffglide();
    CaGlide();
  }

  lemma CaPieces()
    ensures Pieces(Some(Plain("c")), Plain("a"), None)
  {
  }

  lemma CaSegment()
    ensures LineBreakFree(CaText) && Segment(CaText) == Ok(CaSegments)
  {
    CaInitial();
    CaSplit();
    CaPieces();
    SegmentOf(CaText, Some(Plain("c")), Plain("a"), None);
  }

  lemma CaDenormalizeFirst()
    ensures DenormGlide(DenormNucleus(DenormCoda(Ca))) == Ok(Ca)
  {
    Untoned("a");
    Untoned("k");
    assert DenormCoda(Ca) == Ca;
    assert DenormNucleus(Ca) == Ca;
    assert DenormGlide(Ca) == Ok(Ca);
  }

  lemma CaDenormalizeInitial()
    ensures DenormInitial(Ca) == Ok(Ca.(initial := Some(Plain("c"))))
  {
    Untoned("a");
    Untoned("c");
    Untoned("k");
    var x1 := Ca.(initial := Some(Plain("c")));
    assert DenormInitial(Ca) == Ok(x1);
  }

  lemma CaDenormalizeSpelling()
    ensures DeduplicateI(DenormQ(RemoveShortA(Ca.(initial := Some(Plain("c")))))) == Ca.(initial := Some(Plain("c")))
  {
    var y := Ca.(initial := Some(Plain("c")));
    Untoned("a");
    Untoned("c");
    assert RemoveShortA(y) == y;
    assert DenormQ(y) == y;
    assert DeduplicateI(y) == y;
  }

  lemma CaDenormalizeTone()
    ensures DenormTone(Ca.(initial := Some(Plain("c")))) == CaSegments
  {
    var y := Ca.(initial := Some(Plain("c")));
    Untoned("a");
    Untoned("c");
    assert DenormTone(y) == y;
  }

  lemma CaNormal()
    ensures Normal(Ca)
  {
    Untoned("a");
    Untoned("k");
  }

  lemma CaRoundTrip()
    ensures ParseVietnamese(CaText) == Ok(Ca) && EmitVietnamese(Ca) == Ok(CaText)
  {
    CaSegment();
    CaDenormalizeFirst();
    CaDenormalizeInitial();
    CaDenormalizeSpelling();
    CaDenormalizeTone();
    DenormalizeThrough(Ca, Ca, Ca.(initial := Some(Plain("c"))), CaSegments);
    CaNormal();
    NormalizeUndoesDenormalize(Ca);
    RoundTrip(CaText, CaSegments, Ca);
  }

  // kia is (k, -, ia, -, -): k stays k before i.

  const KiaText := Plain("k") + Plain("ia")
  const KiaSegments := Slots(Some(Plain("k")), None, Some(Plain("ia")), None, None)
  const Kia := Slots(Some(Plain("k")), None, Some(Plain("ia")), None, None)

  lemma KiaInitial()
    ensures MatchInitial(KiaText) == Some(Plain("k"))
  {
    InitialHeads();
    forall j | 0 <= j < 15 ensures !IsPrefix(Initials[j], KiaText) {
      if j == 14 {
        Mismatch(Initials[14], KiaText, 1);
      } else {
        assert Heads[j] != 'k';
        Mismatch(Initials[j], KiaText, 0);
      }
    }
    FirstPrefixAt(Initials, KiaText, 15, 0);
  }

  lemma KiaNotUy()
    ensures !UyRime(Plain("ia"))
  {
  }

  lemma KiaOffglide()
    ensures ExtractSemivowel(Plain("ia")) == (None, Plain("ia"))
  {
  }

  lemma KiaGlide()
    ensures ExtractGlide(Plain("ia")) == (None, Plain("ia"))
  {
    Untoned("ia");
  }

  lemma KiaSplit()
    ensures SplitRime(Some(Plain("k")), Plain("ia"), None) == KiaSegments
  {
    KiaNotUy();
    KiaOffglide();
    KiaGlide();
  }

  lemma KiaPieces()
    ensures Pieces(Some(Plain("k")), Plain("ia"), None)
  {
  }

  lemma KiaSegment()
    ensures LineBreakFree(KiaText) && Segment(KiaText) == Ok(KiaSegments)
  {
    KiaInitial();
    KiaSplit();
    KiaPieces();
    SegmentOf(KiaText, Some(Plain("k")), Plain("ia"), None);
  }

  lemma KiaDenormalizeFirst()
    ensures DenormGlide(DenormNucleus(DenormCoda(Kia))) == Ok(Kia)
  {
    Untoned("ia");
    Untoned("k");
    assert DenormCoda(Kia) == Kia;
    assert DenormNucleus(Kia) == Kia;
    assert DenormGlide(Kia) == Ok(Kia);
  }

  lemma KiaDenormalizeInitial()
    ensures DenormInitial(Kia) == Ok(Kia)
  {
    Untoned("ia");
    Untoned("k");
    assert DenormInitial(Kia) == Ok(Kia);
  }

  lemma KiaDenormalizeSpelling()
    ensures DeduplicateI(DenormQ(RemoveShortA(Kia))) == Kia
  {
    Untoned("ia");
    Untoned("k");
    assert RemoveShortA(Kia) == Kia;
    assert DenormQ(Kia) == Kia;
    assert DeduplicateI(Kia) == Kia;
  }

  lemma KiaDenormalizeTone()
    ensures DenormTone(Kia) == KiaSegments
  {
    Untoned("ia");
    Untoned("k");
    assert DenormTone(Kia) == Kia;
  }

  lemma KiaNormal()
    ensures Normal(Kia)
  {
    Untoned("ia");
    Untoned("k");
  }

  lemma KiaRoundTrip()
    ensures ParseVietnamese(KiaText) == Ok(Kia) && EmitVietnamese(Kia) == Ok(KiaText)
  {
    KiaSegment();
    KiaDenormalizeFirst();
    KiaDenormalizeInitial();
    KiaDenormalizeSpelling();
    KiaDenormalizeTone();
    DenormalizeThrough(Kia, Kia, Kia, KiaSegments);
    KiaNormal();
    NormalizeUndoesDenormalize(Kia);
    RoundTrip(KiaText, KiaSegments, Kia);
  }

  // nga is (ng, -, a, -, -).

  const NgaText := Plain("ng") + Plain("a")
  const NgaSegments := Slots(Some(Plain("ng")), None, Some(Plain("a")), None, None)
  const Nga := Slots(Some(Plain("ng")), None, Some(Plain("a")), None, None)

  lemma NgaInitial()
    ensures MatchInitial(NgaText) == Some(Plain("ng"))
  {
    InitialHeads();
    forall j | 0 <= j < 19 ensures !IsPrefix(Initials[j], NgaText) {
      if j == 18 {
        Mismatch(Initials[18], NgaText, 2);
      } else {
        assert Heads[j] != 'n';
        Mismatch(Initials[j], NgaText, 0);
      }
    }
    FirstPrefixAt(Initials, NgaText, 19, 0);
  }

  lemma NgaOffglide()
    ensures ExtractSemivowel(Plain("a")) == (None, Plain("a"))
  {
  }

  lemma NgaGlide()
    ensures ExtractGlide(Plain("a")) == (None, Plain("a"))
  {
    Untoned("a");
  }

  lemma NgaSplit()
    ensures SplitRime(Some(Plain("ng")), Plain("a"), None) == NgaSegments
  {
    NgaOffglide();
    NgaGlide();
  }

  lemma NgaPieces()
    ensures Pieces(Some(Plain("ng")), Plain("a"), None)
  {
  }

  lemma NgaSegment()
    ensures LineBreakFree(NgaText) && Segment(NgaText) == Ok(NgaSegments)
  {
    NgaInitial();
    NgaSplit();
    NgaPieces();
    SegmentOf(NgaText, Some(Plain("ng")), Plain("a"), None);
  }

  lemma NgaDenormalizeFirst()
    ensures DenormGlide(DenormNucleus(DenormCoda(Nga))) == Ok(Nga)
  {
    Untoned("a");
    Untoned("ng");
    assert DenormCoda(Nga) == Nga;
    assert DenormNucleus(Nga) == Nga;
    assert DenormGlide(Nga) == Ok(Nga);
  }

  lemma NgaDenormalizeInitial()
    ensures DenormInitial(Nga) == Ok(Nga)
  {
    Untoned("a");
    Untoned("ng");
    assert DenormInitial(Nga) == Ok(Nga);
  }

  lemma NgaDenormalizeSpelling()
    ensures DeduplicateI(DenormQ(RemoveShortA(Nga))) == Nga
  {
    Untoned("a");
    Untoned("ng");
    assert RemoveShortA(Nga) == Nga;
    assert DenormQ(Nga) == Nga;
    assert DeduplicateI(Nga) == Nga;
  }

  lemma NgaDenormalizeTone()
    ensures DenormTone(Nga) == NgaSegments
  {
    Untoned("a");
    Untoned("ng");
    assert DenormTone(Nga) == Nga;
  }

  lemma NgaNormal()
    ensures Normal(Nga)
  {
    Untoned("a");
    Untoned("ng");
  }

  lemma NgaRoundTrip()
    ensures ParseVietnamese(NgaText) == Ok(Nga) && EmitVietnamese(Nga) == Ok(NgaText)
  {
    NgaSegment();
    NgaDenormalizeFirst();
    NgaDenormalizeInitial();
    NgaDenormalizeSpelling();
    NgaDenormalizeTone();
    DenormalizeThrough(Nga, Nga, Nga, NgaSegments);
    NgaNormal();
    NormalizeUndoesDenormalize(Nga);
    RoundTrip(NgaText, NgaSegments, Nga);
  }

  // nghe is (ng, -, e, -, -): ngh is ng, written ngh again before e.

  const NgheText := Plain("ngh") + Plain("e")
  const NgheSegments := Slots(Some(Plain("ngh")), None, Some(Plain("e")), None, None)
  const Nghe := Slots(Some(Plain("ng")), None, Some(Plain("e")), None, None)

  lemma NgheInitial()
    ensures MatchInitial(NgheText) == Some(Plain("ngh"))
  {
    InitialHeads();
    forall j | 0 <= j < 18 ensures !IsPrefix(Initials[j], NgheText) {
      assert Heads[j] != 'n';
      Mismatch(Initials[j], NgheText, 0);
    }
    FirstPrefixAt(Initials, NgheText, 18, 0);
  }

  lemma NgheOffglide()
    ensures ExtractSemivowel(Plain("e")) == (None, Plain("e"))
  {
  }

  lemma NgheGlide()
    ensures ExtractGlide(Plain("e")) == (None, Plain("e"))
  {
    Untoned("e");
  }

  lemma NgheSplit()
    ensures SplitRime(Some(Plain("ngh")), Plain("e"), None) == NgheSegments
  {
    NgheOffglide();
    NgheGlide();
  }

  lemma NghePieces()
    ensures Pieces(Some(Plain("ngh")), Plain("e"), None)
  {
  }

  lemma NgheSegment()
    ensures LineBreakFree(NgheText) && Segment(NgheText) == Ok(NgheSegments)
  {
    NgheInitial();
    NgheSplit();
    NghePieces();
    SegmentOf(NgheText, Some(Plain("ngh")), Plain("e"), None);
  }

  lemma NgheDenormalizeFirst()
    ensures DenormGlide(DenormNucleus(DenormCoda(Nghe))) == Ok(Nghe)
  {
    Untoned("e");
    Untoned("ng");
    assert DenormCoda(Nghe) == Nghe;
    assert DenormNucleus(Nghe) == Nghe;
    assert DenormGlide(Nghe) == Ok(Nghe);
  }

  lemma NgheDenormalizeInitial()
    ensures DenormInitial(Nghe) == Ok(Nghe.(initial := Some(Plain("ngh"))))
  {
    Untoned("e");
    Untoned("ng");
    Untoned("ngh");
    var x1 := Nghe.(initial := Some(Plain("ngh")));
    assert DenormInitial(Nghe) == Ok(x1);
  }

  lemma NgheDenormalizeSpelling()
    ensures DeduplicateI(DenormQ(RemoveShortA(Nghe.(initial := Some(Plain("ngh")))))) == Nghe.(initial := Some(Plain("ngh")))
  {
    var y := Nghe.(initial := Some(Plain("ngh")));
    Untoned("e");
    Untoned("ngh");
    assert RemoveShortA(y) == y;
    assert DenormQ(y) == y;
    assert DeduplicateI(y) == y;
  }

  lemma NgheDenormalizeTone()
    ensures DenormTone(Nghe.(initial := Some(Plain("ngh")))) == NgheSegments
  {
    var y := Nghe.(initial := Some(Plain("ngh")));
    Untoned("e");
    Untoned("ngh");
    assert DenormTone(y) == y;
  }

  lemma NgheNormal()
    ensures Normal(Nghe)
  {
    Untoned("e");
    Untoned("ng");
  }

  lemma NgheRoundTrip()
    ensures ParseVietnamese(NgheText) == Ok(Nghe) && EmitVietnamese(Nghe) == Ok(NgheText)
  {
    NgheSegment();
    NgheDenormalizeFirst();
    NgheDenormalizeInitial();
    NgheDenormalizeSpelling();
    NgheDenormalizeTone();
    DenormalizeThrough(Nghe, Nghe, Nghe.(initial := Some(Plain("ngh"))), NgheSegments);
    NgheNormal();
    NormalizeUndoesDenormalize(Nghe);
    RoundTrip(NgheText, NgheSegments, Nghe);
  }

  // nghiêm is (ng, -, ia, m, -): iê is the diphthong ia, spelled iê again after an
  // initial and before a coda; ng before i is ngh.

  const NghiemText := Plain("ngh") + Plain("iê") + Plain("m")
  const NghiemSegments := Slots(Some(Plain("ngh")), None, Some(Plain("iê")), Some(Plain("m")), None)
  const Nghiem := Slots(Some(Plain("ng")), None, Some(Plain("ia")), Some(Plain("m")), None)

  lemma NghiemInitial()
    ensures MatchInitial(NghiemText) == Some(Plain("ngh"))
  {
    InitialHeads();
    forall j | 0 <= j < 18 ensures !IsPrefix(Initials[j], NghiemText) {
      assert Heads[j] != 'n';
      Mismatch(Initials[j], NghiemText, 0);
    }
    FirstPrefixAt(Initials, NghiemText, 18, 0);
  }

  lemma NghiemNotUy()
    ensures !UyRime(Plain("iê"))
  {
  }

  lemma NghiemGlide()
    ensures ExtractGlide(Plain("iê")) == (None, Plain("iê"))
  {
    Untoned("iê");
  }

  lemma NghiemSplit()
    ensures SplitRime(Some(Plain("ngh")), Plain("iê"), Some(Plain("m"))) == NghiemSegments
  {
    NghiemNotUy();
    NghiemGlide();
  }

  lemma NghiemPieces()
    ensures Pieces(Some(Plain("ngh")), Plain("iê"), Some(Plain("m")))
  {
  }

  lemma NghiemSegment()
    ensures LineBreakFree(NghiemText) && Segment(NghiemText) == Ok(NghiemSegments)
  {
    NghiemInitial();
    NghiemSplit();
    NghiemPieces();
    SegmentOf(NghiemText, Some(Plain("ngh")), Plain("iê"), Some(Plain("m")));
  }

  lemma NghiemDenormalizeFirst()
    ensures DenormGlide(DenormNucleus(DenormCoda(Nghiem))) == Ok(Nghiem.(nucleus := Some(Plain("iê"))))
  {
    Untoned("ia");
    Untoned("iê");
    Untoned("m");
    Untoned("ng");
    assert DenormCoda(Nghiem) == Nghiem;
    var x1 := Nghiem.(nucleus := Some(Plain("iê")));
    assert DenormNucleus(Nghiem) == x1;
    assert DenormGlide(x1) == Ok(x1);
  }

  lemma NghiemDenormalizeInitial()
    ensures DenormInitial(Nghiem.(nucleus := Some(Plain("iê")))) == Ok(Nghiem.(initial := Some(Plain("ngh")), nucleus := Some(Plain("iê"))))
  {
    var y := Nghiem.(nucleus := Some(Plain("iê")));
    Untoned("iê");
    Untoned("m");
    Untoned("ng");
    Untoned("ngh");
    var x1 := Nghiem.(initial := Some(Plain("ngh")), nucleus := Some(Plain("iê")));
    assert DenormInitial(y) == Ok(x1);
  }

  lemma NghiemDenormalizeSpelling()
    ensures DeduplicateI(DenormQ(RemoveShortA(Nghiem.(initial := Some(Plain("ngh")), nucleus := Some(Plain("iê")))))) == Nghiem.(initial := Some(Plain("ngh")), nucleus := Some(Plain("iê")))
  {
    var y := Nghiem.(initial := Some(Plain("ngh")), nucleus := Some(Plain("iê")));
    Untoned("iê");
    Untoned("m");
    Untoned("ngh");
    assert RemoveShortA(y) == y;
    assert DenormQ(y) == y;
    assert DeduplicateI(y) == y;
  }

  lemma NghiemDenormalizeTone()
    ensures DenormTone(Nghiem.(initial := Some(Plain("ngh")), nucleus := Some(Plain("iê")))) == NghiemSegments
  {
    var y := Nghiem.(initial := Some(Plain("ngh")), nucleus := Some(Plain("iê")));
    Untoned("iê");
    Untoned("m");
    Untoned("ngh");
    assert DenormTone(y) == y;
  }

  lemma NghiemNormal()
    ensures Normal(Nghiem)
  {
    Untoned("ia");
    Untoned("m");
    Untoned("ng");
  }

  lemma NghiemRoundTrip()
    ensures ParseVietnamese(NghiemText) == Ok(Nghiem) && EmitVietnamese(Nghiem) == Ok(NghiemText)
  {
    NghiemSegment();
    NghiemDenormalizeFirst();
    NghiemDenormalizeInitial();
    NghiemDenormalizeSpelling();
    NghiemDenormalizeTone();
    DenormalizeThrough(Nghiem, Nghiem.(nucleus := Some(Plain("iê"))), Nghiem.(initial := Some(Plain("ngh")), nucleus := Some(Plain("iê"))), NghiemSegments);
    NghiemNormal();
    NormalizeUndoesDenormalize(Nghiem);
    RoundTrip(NghiemText, NghiemSegments, Nghiem);
  }

  // ga is (g, -, a, -, -).

  const GaText := Plain("g") + Plain("a")
  const GaSegments := Slots(Some(Plain("g")), None, Some(Plain("a")), None, None)
  const Ga := Slots(Some(Plain("g")), None, Some(Plain("a")), None, None)

  lemma GaInitial()
    ensures MatchInitial(GaText) == Some(Plain("g"))
  {
    InitialHeads();
    forall j | 0 <= j < 12 ensures !IsPrefix(Initials[j], GaText) {
      if j == 5 {
        Mismatch(Initials[5], GaText, 1);
      } else if j == 6 {
        Mismatch(Initials[6], GaText, 1);
      } else if j == 7 {
        Mismatch(Initials[7], GaText, 1);
      } else if j == 8 {
        Mismatch(Initials[8], GaText, 1);
      } else if j == 9 {
        Mismatch(Initials[9], GaText, 1);
      } else if j == 10 {
        Mismatch(Initials[10], GaText, 1);
      } else if j == 11 {
        Mismatch(Initials[11], GaText, 1);
      } else {
        assert Heads[j] != 'g';
        Mismatch(Initials[j], GaText, 0);
      }
    }
    FirstPrefixAt(Initials, GaText, 12, 0);
  }

  lemma GaOffglide()
    ensures ExtractSemivowel(Plain("a")) == (None, Plain("a"))
  {
  }

  lemma GaGlide()
    ensures ExtractGlide(Plain("a")) == (None, Plain("a"))
  {
    Untoned("a");
  }

  lemma GaSplit()
    ensures SplitRime(Some(Plain("g")), Plain("a"), None) == GaSegments
  {
    GaOffglide();
    GaGlide();
  }

  lemma GaPieces()
    ensures Pieces(Some(Plain("g")), Plain("a"), None)
  {
  }

  lemma GaSegment()
    ensures LineBreakFree(GaText) && Segment(GaText) == Ok(GaSegments)
  {
    GaInitial();
    GaSplit();
    GaPieces();
    SegmentOf(GaText, Some(Plain("g")), Plain("a"), None);
  }

  lemma GaDenormalizeFirst()
    ensures DenormGlide(DenormNucleus(DenormCoda(Ga))) == Ok(Ga)
  {
    Untoned("a");
    Untoned("g");
    assert DenormCoda(Ga) == Ga;
    assert DenormNucleus(Ga) == Ga;
    assert DenormGlide(Ga) == Ok(Ga);
  }

  lemma GaDenormalizeInitial()
    ensures DenormInitial(Ga) == Ok(Ga)
  {
    Untoned("a");
    Untoned("g");
    assert DenormInitial(Ga) == Ok(Ga);
  }

  lemma GaDenormalizeSpelling()
    ensures DeduplicateI(DenormQ(RemoveShortA(Ga))) == Ga
  {
    Untoned("a");
    Untoned("g");
    assert RemoveShortA(Ga) == Ga;
    assert DenormQ(Ga) == Ga;
    assert DeduplicateI(Ga) == Ga;
  }

  lemma GaDenormalizeTone()
    ensures DenormTone(Ga) == GaSegments
  {
    Untoned("a");
    Untoned("g");
    assert DenormTone(Ga) == Ga;
  }

  lemma GaNormal()
    ensures Normal(Ga)
  {
    Untoned("a");
    Untoned("g");
  }

  lemma GaRoundTrip()
    ensures ParseVietnamese(GaText) == Ok(Ga) && EmitVietnamese(Ga) == Ok(GaText)
  {
    GaSegment();
    GaDenormalizeFirst();
    GaDenormalizeInitial();
    GaDenormalizeSpelling();
    GaDenormalizeTone();
    DenormalizeThrough(Ga, Ga, Ga, GaSegments);
    GaNormal();
    NormalizeUndoesDenormalize(Ga);
    RoundTrip(GaText, GaSegments, Ga);
  }

  // ghét is (g, -, e, t, s): gh is g, written gh again before e.

  const GhetText := Plain("gh") + Marked("", 'e', S, "") + Plain("t")
  const GhetSegments := Slots(Some(Plain("gh")), None, Some(Marked("", 'e', S, "")), Some(Plain("t")), None)
  const Ghet := Slots(Some(Plain("g")), None, Some(Plain("e")), Some(Plain("t")), Some(S))

  lemma GhetInitial()
    ensures MatchInitial(GhetText) == Some(Plain("gh"))
  {
    InitialHeads();
    forall j | 0 <= j < 5 ensures !IsPrefix(Initials[j], GhetText) {
      assert Heads[j] != 'g';
      Mismatch(Initials[j], GhetText, 0);
    }
    FirstPrefixAt(Initials, GhetText, 5, 0);
  }

  lemma GhetGlide()
    ensures ExtractGlide(Marked("", 'e', S, "")) == (None, Marked("", 'e', S, ""))
  {
    MarkedTone("", 'e', S, "");
  }

  lemma GhetSplit()
    ensures SplitRime(Some(Plain("gh")), Marked("", 'e', S, ""), Some(Plain("t"))) == GhetSegments
  {
    GhetGlide();
  }

  lemma GhetPieces()
    ensures Pieces(Some(Plain("gh")), Marked("", 'e', S, ""), Some(Plain("t")))
  {
  }

  lemma GhetSegment()
    ensures LineBreakFree(GhetText) && Segment(GhetText) == Ok(GhetSegments)
  {
    GhetInitial();
    GhetSplit();
    GhetPieces();
    SegmentOf(GhetText, Some(Plain("gh")), Marked("", 'e', S, ""), Some(Plain("t")));
  }

  lemma GhetDenormalizeFirst()
    ensures DenormGlide(DenormNucleus(DenormCoda(Ghet))) == Ok(Ghet)
  {
    Untoned("e");
    Untoned("g");
    Untoned("t");
    assert DenormCoda(Ghet) == Ghet;
    assert DenormNucleus(Ghet) == Ghet;
    assert DenormGlide(Ghet) == Ok(Ghet);
  }

  lemma GhetDenormalizeInitial()
    ensures DenormInitial(Ghet) == Ok(Ghet.(initial := Some(Plain("gh"))))
  {
    Untoned("e");
    Untoned("g");
    Untoned("gh");
    Untoned("t");
    var x1 := Ghet.(initial := Some(Plain("gh")));
    assert DenormInitial(Ghet) == Ok(x1);
  }

  lemma GhetDenormalizeSpelling()
    ensures DeduplicateI(DenormQ(RemoveShortA(Ghet.(initial := Some(Plain("gh")))))) == Ghet.(initial := Some(Plain("gh")))
  {
    var y := Ghet.(initial := Some(Plain("gh")));
    Untoned("e");
    Untoned("gh");
    Untoned("t");
    assert RemoveShortA(y) == y;
    assert DenormQ(y) == y;
    assert DeduplicateI(y) == y;
  }

  lemma GhetDenormalizeTone()
    ensures DenormTone(Ghet.(initial := Some(Plain("gh")))) == GhetSegments
  {
    var y := Ghet.(initial := Some(Plain("gh")));
    Untoned("e");
    Untoned("gh");
    Untoned("t");
    MarkedTone("", 'e', S, "");
    MarkedByAddTone("", 'e', S, "", false);
    var x1 := Ghet.(initial := Some(Plain("gh")), nucleus := Some(Marked("", 'e', S, "")), tone := None);
    assert DenormTone(y) == x1;
  }

  lemma GhetNormal()
    ensures Normal(Ghet)
  {
    Untoned("e");
    Untoned("g");
    Untoned("t");
  }

  lemma GhetRoundTrip()
    ensures ParseVietnamese(GhetText) == Ok(Ghet) && EmitVietnamese(Ghet) == Ok(GhetText)
  {
    GhetSegment();
    GhetDenormalizeFirst();
    GhetDenormalizeInitial();
    GhetDenormalizeSpelling();
    GhetDenormalizeTone();
    DenormalizeThrough(Ghet, Ghet, Ghet.(initial := Some(Plain("gh"))), GhetSegments);
    GhetNormal();
    NormalizeUndoesDenormalize(Ghet);
    RoundTrip(GhetText, GhetSegments, Ghet);
  }

  // thiên is (th, -, ia, n, -).

  const ThienText := Plain("th") + Plain("iê") + Plain("n")
  const ThienSegments := Slots(Some(Plain("th")), None, Some(Plain("iê")), Some(Plain("n")), None)
  const Thien := Slots(Some(Plain("th")), None, Some(Plain("ia")), Some(Plain("n")), None)

  lemma ThienInitial()
    ensures MatchInitial(ThienText) == Some(Plain("th"))
  {
    InitialHeads();
    forall j | 0 <= j < 26 ensures !IsPrefix(Initials[j], ThienText) {
      assert Heads[j] != 't';
      Mismatch(Initials[j], ThienText, 0);
    }
    FirstPrefixAt(Initials, ThienText, 26, 0);
  }

  lemma ThienNotUy()
    ensures !UyRime(Plain("iê"))
  {
  }

  lemma ThienGlide()
    ensures ExtractGlide(Plain("iê")) == (None, Plain("iê"))
  {
    Untoned("iê");
  }

  lemma ThienSplit()
    ensures SplitRime(Some(Plain("th")), Plain("iê"), Some(Plain("n"))) == ThienSegments
  {
    ThienNotUy();
    ThienGlide();
  }

  lemma ThienPieces()
    ensures Pieces(Some(Plain("th")), Plain("iê"), Some(Plain("n")))
  {
  }

  lemma ThienSegment()
    ensures LineBreakFree(ThienText) && Segment(ThienText) == Ok(ThienSegments)
  {
    ThienInitial();
    ThienSplit();
    ThienPieces();
    SegmentOf(ThienText, Some(Plain("th")), Plain("iê"), Some(Plain("n")));
  }

  lemma ThienDenormalizeFirst()
    ensures DenormGlide(DenormNucleus(DenormCoda(Thien))) == Ok(Thien.(nucleus := Some(Plain("iê"))))
  {
    Untoned("ia");
    Untoned("iê");
    Untoned("n");
    Untoned("th");
    assert DenormCoda(Thien) == Thien;
    var x1 := Thien.(nucleus := Some(Plain("iê")));
    assert DenormNucleus(Thien) == x1;
    assert DenormGlide(x1) == Ok(x1);
  }

  lemma ThienDenormalizeInitial()
    ensures DenormInitial(Thien.(nucleus := Some(Plain("iê")))) == Ok(Thien.(nucleus := Some(Plain("iê"))))
  {
    var y := Thien.(nucleus := Some(Plain("iê")));
    Untoned("iê");
    Untoned("n");
    Untoned("th");
    assert DenormInitial(y) == Ok(y);
  }

  lemma ThienDenormalizeSpelling()
    ensures DeduplicateI(DenormQ(RemoveShortA(Thien.(nucleus := Some(Plain("iê")))))) == Thien.(nucleus := Some(Plain("iê")))
  {
    var y := Thien.(nucleus := Some(Plain("iê")));
    Untoned("iê");
    Untoned("n");
    Untoned("th");
    assert RemoveShortA(y) == y;
    assert DenormQ(y) == y;
    assert DeduplicateI(y) == y;
  }

  lemma ThienDenormalizeTone()
    ensures DenormTone(Thien.(nucleus := Some(Plain("iê")))) == ThienSegments
  {
    var y := Thien.(nucleus := Some(Plain("iê")));
    Untoned("iê");
    Untoned("n");
    Untoned("th");
    assert DenormTone(y) == y;
  }

  lemma ThienNormal()
    ensures Normal(Thien)
  {
    Untoned("ia");
    Untoned("n");
    Untoned("th");
  }

  lemma ThienRoundTrip()
    ensures ParseVietnamese(ThienText) == Ok(Thien) && EmitVietnamese(Thien) == Ok(ThienText)
  {
    ThienSegment();
    ThienDenormalizeFirst();
    ThienDenormalizeInitial();
    ThienDenormalizeSpelling();
    ThienDenormalizeTone();
    DenormalizeThrough(Thien, Thien.(nucleus := Some(Plain("iê"))), Thien.(nucleus := Some(Plain("iê"))), ThienSegments);
    ThienNormal();
    NormalizeUndoesDenormalize(Thien);
    RoundTrip(ThienText, ThienSegments, Thien);
  }

  // muốn is (m, -, ua, n, s): uô is the diphthong ua, spelled uô again before a coda.

  const MuonText := Plain("m") + Marked("u", 'ô', S, "") + Plain("n")
  const MuonSegments := Slots(Some(Plain("m")), None, Some(Marked("u", 'ô', S, "")), Some(Plain("n")), None)
  const Muon := Slots(Some(Plain("m")), None, Some(Plain("ua")), Some(Plain("n")), Some(S))

  lemma MuonInitial()
    ensures MatchInitial(MuonText) == Some(Plain("m"))
  {
    InitialHeads();
    forall j | 0 <= j < 17 ensures !IsPrefix(Initials[j], MuonText) {
      assert Heads[j] != 'm';
      Mismatch(Initials[j], MuonText, 0);
    }
    FirstPrefixAt(Initials, MuonText, 17, 0);
  }

  lemma MuonNotUy()
    ensures !UyRime(Marked("u", 'ô', S, ""))
  {
  }

  lemma MuonGlide()
    ensures ExtractGlide(Marked("u", 'ô', S, "")) == (None, Marked("u", 'ô', S, ""))
  {
    MarkedTone("u", 'ô', S, "");
  }

  lemma MuonSplit()
    ensures SplitRime(Some(Plain("m")), Marked("u", 'ô', S, ""), Some(Plain("n"))) == MuonSegments
  {
    MuonNotUy();
    MuonGlide();
  }

  lemma MuonPieces()
    ensures Pieces(Some(Plain("m")), Marked("u", 'ô', S, ""), Some(Plain("n")))
  {
  }

  lemma MuonSegment()
    ensures LineBreakFree(MuonText) && Segment(MuonText) == Ok(MuonSegments)
  {
    MuonInitial();
    MuonSplit();
    MuonPieces();
    SegmentOf(MuonText, Some(Plain("m")), Marked("u", 'ô', S, ""), Some(Plain("n")));
  }

  lemma MuonDenormalizeFirst()
    ensures DenormGlide(DenormNucleus(DenormCoda(Muon))) == Ok(Muon.(nucleus := Some(Plain("uô"))))
  {
    Untoned("m");
    Untoned("n");
    Untoned("ua");
    Untoned("uô");
    assert DenormCoda(Muon) == Muon;
    var x1 := Muon.(nucleus := Some(Plain("uô")));
    assert DenormNucleus(Muon) == x1;
    assert DenormGlide(x1) == Ok(x1);
  }

  lemma MuonDenormalizeInitial()
    ensures DenormInitial(Muon.(nucleus := Some(Plain("uô")))) == Ok(Muon.(nucleus := Some(Plain("uô"))))
  {
    var y := Muon.(nucleus := Some(Plain("uô")));
    Untoned("m");
    Untoned("n");
    Untoned("uô");
    assert DenormInitial(y) == Ok(y);
  }

  lemma MuonDenormalizeSpelling()
    ensures DeduplicateI(DenormQ(RemoveShortA(Muon.(nucleus := Some(Plain("uô")))))) == Muon.(nucleus := Some(Plain("uô")))
  {
    var y := Muon.(nucleus := Some(Plain("uô")));
    Untoned("m");
    Untoned("n");
    Untoned("uô");
    assert RemoveShortA(y) == y;
    assert DenormQ(y) == y;
    assert DeduplicateI(y) == y;
  }

  lemma MuonDenormalizeTone()
    ensures DenormTone(Muon.(nucleus := Some(Plain("uô")))) == MuonSegments
  {
    var y := Muon.(nucleus := Some(Plain("uô")));
    Untoned("m");
    Untoned("n");
    Untoned("uô");
    MarkedTone("u", 'ô', S, "");
    MarkedByAddTone("u", 'ô', S, "", false);
    var x1 := Muon.(nucleus := Some(Marked("u", 'ô', S, "")), tone := None);
    assert DenormTone(y) == x1;
  }

  lemma MuonNormal()
    ensures Normal(Muon)
  {
    Untoned("m");
    Untoned("n");
    Untoned("ua");
  }

  lemma MuonRoundTrip()
    ensures ParseVietnamese(MuonText) == Ok(Muon) && EmitVietnamese(Muon) == Ok(MuonText)
  {
    MuonSegment();
    MuonDenormalizeFirst();
    MuonDenormalizeInitial();
    MuonDenormalizeSpelling();
    MuonDenormalizeTone();
    DenormalizeThrough(Muon, Muon.(nucleus := Some(Plain("uô"))), Muon.(nucleus := Some(Plain("uô"))), MuonSegments);
    MuonNormal();
    NormalizeUndoesDenormalize(Muon);
    RoundTrip(MuonText, MuonSegments, Muon);
  }

  // nước is (n, -, uwa, c, s): ươ is the diphthong uwa, spelled ươ again before a coda.

  const NuocText := Plain("n") + Marked("ư", 'ơ', S, "") + Plain("c")
  const NuocSegments := Slots(Some(Plain("n")), None, Some(Marked("ư", 'ơ', S, "")), Some(Plain("c")), None)
  const Nuoc := Slots(Some(Plain("n")), None, Some(Plain("uwa")), Some(Plain("c")), Some(S))

  lemma NuocInitial()
    ensures MatchInitial(NuocText) == Some(Plain("n"))
  {
    InitialHeads();
    forall j | 0 <= j < 21 ensures !IsPrefix(Initials[j], NuocText) {
      if j == 18 {
        Mismatch(Initials[18], NuocText, 1);
      } else if j == 19 {
        Mismatch(Initials[19], NuocText, 1);
      } else if j == 20 {
        Mismatch(Initials[20], NuocText, 1);
      } else {
        assert Heads[j] != 'n';
        Mismatch(Initials[j], NuocText, 0);
      }
    }
    FirstPrefixAt(Initials, NuocText, 21, 0);
  }

  lemma NuocNotUy()
    ensures !UyRime(Marked("ư", 'ơ', S, ""))
  {
  }

  lemma NuocGlide()
    ensures ExtractGlide(Marked("ư", 'ơ', S, "")) == (None, Marked("ư", 'ơ', S, ""))
  {
    MarkedTone("ư", 'ơ', S, "");
  }

  lemma NuocSplit()
    ensures SplitRime(Some(Plain("n")), Marked("ư", 'ơ', S, ""), Some(Plain("c"))) == NuocSegments
  {
    NuocNotUy();
    NuocGlide();
  }

  lemma NuocPieces()
    ensures Pieces(Some(Plain("n")), Marked("ư", 'ơ', S, ""), Some(Plain("c")))
  {
  }

  lemma NuocSegment()
    ensures LineBreakFree(NuocText) && Segment(NuocText) == Ok(NuocSegments)
  {
    NuocInitial();
    NuocSplit();
    NuocPieces();
    SegmentOf(NuocText, Some(Plain("n")), Marked("ư", 'ơ', S, ""), Some(Plain("c")));
  }

  lemma NuocDenormalizeFirst()
    ensures DenormGlide(DenormNucleus(DenormCoda(Nuoc))) == Ok(Nuoc.(nucleus := Some(Plain("ươ"))))
  {
    Untoned("c");
    Untoned("n");
    Untoned("uwa");
    Untoned("ươ");
    assert DenormCoda(Nuoc) == Nuoc;
    var x1 := Nuoc.(nucleus := Some(Plain("ươ")));
    assert DenormNucleus(Nuoc) == x1;
    assert DenormGlide(x1) == Ok(x1);
  }

  lemma NuocDenormalizeInitial()
    ensures DenormInitial(Nuoc.(nucleus := Some(Plain("ươ")))) == Ok(Nuoc.(nucleus := Some(Plain("ươ"))))
  {
    var y := Nuoc.(nucleus := Some(Plain("ươ")));
    Untoned("c");
    Untoned("n");
    Untoned("ươ");
    assert DenormInitial(y) == Ok(y);
  }

  lemma NuocDenormalizeSpelling()
    ensures DeduplicateI(DenormQ(RemoveShortA(Nuoc.(nucleus := Some(Plain("ươ")))))) == Nuoc.(nucleus := Some(Plain("ươ")))
  {
    var y := Nuoc.(nucleus := Some(Plain("ươ")));
    Untoned("c");
    Untoned("n");
    Untoned("ươ");
    assert RemoveShortA(y) == y;
    assert DenormQ(y) == y;
    assert DeduplicateI(y) == y;
  }

  lemma NuocDenormalizeTone()
    ensures DenormTone(Nuoc.(nucleus := Some(Plain("ươ")))) == NuocSegments
  {
    var y := Nuoc.(nucleus := Some(Plain("ươ")));
    Untoned("c");
    Untoned("n");
    Untoned("ươ");
    MarkedTone("ư", 'ơ', S, "");
    MarkedByAddTone("ư", 'ơ', S, "", false);
    var x1 := Nuoc.(nucleus := Some(Marked("ư", 'ơ', S, "")), tone := None);
    assert DenormTone(y) == x1;
  }

  lemma NuocNormal()
    ensures Normal(Nuoc)
  {
    Untoned("c");
    Untoned("n");
    Untoned("uwa");
  }

  lemma NuocRoundTrip()
    ensures ParseVietnamese(NuocText) == Ok(Nuoc) && EmitVietnamese(Nuoc) == Ok(NuocText)
  {
    NuocSegment();
    NuocDenormalizeFirst();
    NuocDenormalizeInitial();
    NuocDenormalizeSpelling();
    NuocDenormalizeTone();
    DenormalizeThrough(Nuoc, Nuoc.(nucleus := Some(Plain("ươ"))), Nuoc.(nucleus := Some(Plain("ươ"))), NuocSegments);
    NuocNormal();
    NormalizeUndoesDenormalize(Nuoc);
    RoundTrip(NuocText, NuocSegments, Nuoc);
  }

  // bữa is (b, -, uwa, -, x): ưa is uwa, spelled ưa again with no coda.

  const BuaText := Plain("b") + Marked("", 'ư', X, "a")
  const BuaSegments := Slots(Some(Plain("b")), None, Some(Marked("", 'ư', X, "a")), None, None)
  const Bua := Slots(Some(Plain("b")), None, Some(Plain("uwa")), None, Some(X))

  lemma BuaInitial()
    ensures MatchInitial(BuaText) == Some(Plain("b"))
  {
    InitialHeads();
    FirstPrefixAt(Initials, BuaText, 0, 0);
  }

  lemma BuaNotUy()
    ensures !UyRime(Marked("", 'ư', X, "a"))
  {
  }

  lemma BuaOffglide()
    ensures ExtractSemivowel(Marked("", 'ư', X, "a")) == (None, Marked("", 'ư', X, "a"))
  {
  }

  lemma BuaGlide()
    ensures ExtractGlide(Marked("", 'ư', X, "a")) == (None, Marked("", 'ư', X, "a"))
  {
    MarkedTone("", 'ư', X, "a");
  }

  lemma BuaSplit()
    ensures SplitRime(Some(Plain("b")), Marked("", 'ư', X, "a"), None) == BuaSegments
  {
    BuaNotUy();
    BuaOffglide();
    BuaGlide();
  }

  lemma BuaPieces()
    ensures Pieces(Some(Plain("b")), Marked("", 'ư', X, "a"), None)
  {
  }

  lemma BuaSegment()
    ensures LineBreakFree(BuaText) && Segment(BuaText) == Ok(BuaSegments)
  {
    BuaInitial();
    BuaSplit();
    BuaPieces();
    SegmentOf(BuaText, Some(Plain("b")), Marked("", 'ư', X, "a"), None);
  }

  lemma BuaDenormalizeFirst()
    ensures DenormGlide(DenormNucleus(DenormCoda(Bua))) == Ok(Bua.(nucleus := Some(Plain("ưa"))))
  {
    Untoned("b");
    Untoned("uwa");
    Untoned("ưa");
    assert DenormCoda(Bua) == Bua;
    var x1 := Bua.(nucleus := Some(Plain("ưa")));
    assert DenormNucleus(Bua) == x1;
    assert DenormGlide(x1) == Ok(x1);
  }

  lemma BuaDenormalizeInitial()
    ensures DenormInitial(Bua.(nucleus := Some(Plain("ưa")))) == Ok(Bua.(nucleus := Some(Plain("ưa"))))
  {
    var y := Bua.(nucleus := Some(Plain("ưa")));
    Untoned("b");
    Untoned("ưa");
    assert DenormInitial(y) == Ok(y);
  }

  lemma BuaDenormalizeSpelling()
    ensures DeduplicateI(DenormQ(RemoveShortA(Bua.(nucleus := Some(Plain("ưa")))))) == Bua.(nucleus := Some(Plain("ưa")))
  {
    var y := Bua.(nucleus := Some(Plain("ưa")));
    Untoned("b");
    Untoned("ưa");
    assert RemoveShortA(y) == y;
    assert DenormQ(y) == y;
    assert DeduplicateI(y) == y;
  }

  lemma BuaDenormalizeTone()
    ensures DenormTone(Bua.(nucleus := Some(Plain("ưa")))) == BuaSegments
  {
    var y := Bua.(nucleus := Some(Plain("ưa")));
    Untoned("b");
    Untoned("ưa");
    MarkedTone("", 'ư', X, "a");
    MarkedByAddTone("", 'ư', X, "a", true);
    var x1 := Bua.(nucleus := Some(Marked("", 'ư', X, "a")), tone := None);
    assert DenormTone(y) == x1;
  }

  lemma BuaNormal()
    ensures Normal(Bua)
  {
    Untoned("b");
    Untoned("uwa");
  }

  lemma BuaRoundTrip()
    ensures ParseVietnamese(BuaText) == Ok(Bua) && EmitVietnamese(Bua) == Ok(BuaText)
  {
    BuaSegment();
    BuaDenormalizeFirst();
    BuaDenormalizeInitial();
    BuaDenormalizeSpelling();
    BuaDenormalizeTone();
    DenormalizeThrough(Bua, Bua.(nucleus := Some(Plain("ưa"))), Bua.(nucleus := Some(Plain("ưa"))), BuaSegments);
    BuaNormal();
    NormalizeUndoesDenormalize(Bua);
    RoundTrip(BuaText, BuaSegments, Bua);
  }

  // tay is (t, -, aw, i, -): a before the offglide y is the short ă, and the offglide
  // after ă is written y.

  const TayText := Plain("t") + Plain("ay")
  const TaySegments := Slots(Some(Plain("t")), None, Some(Plain("a")), Some(Plain("y")), None)
  const Tay := Slots(Some(Plain("t")), None, Some(Plain("aw")), Some(Plain("i")), None)

  lemma TayInitial()
    ensures MatchInitial(TayText) == Some(Plain("t"))
  {
    InitialHeads();
    forall j | 0 <= j < 28 ensures !IsPrefix(Initials[j], TayText) {
      if j == 26 {
        Mismatch(Initials[26], TayText, 1);
      } else if j == 27 {
        Mismatch(Initials[27], TayText, 1);
      } else {
        assert Heads[j] != 't';
        Mismatch(Initials[j], TayText, 0);
      }
    }
    FirstPrefixAt(Initials, TayText, 28, 0);
  }

  lemma TayNotUy()
    ensures !UyRime(Plain("ay"))
  {
  }

  lemma TayOffglide()
    ensures ExtractSemivowel(Plain("ay")) == (Some(Plain("y")), Plain("a"))
  {
    assert Plain("ay")[..1] == Plain("a");
    assert [Plain("ay")[1]] == Plain("y");
  }

  lemma TayGlide()
    ensures ExtractGlide(Plain("a")) == (None, Plain("a"))
  {
    Untoned("a");
  }

  lemma TaySplit()
    ensures SplitRime(Some(Plain("t")), Plain("ay"), None) == TaySegments
  {
    TayNotUy();
    TayOffglide();
    TayGlide();
  }

  lemma TayPieces()
    ensures Pieces(Some(Plain("t")), Plain("ay"), None)
  {
  }

  lemma TaySegment()
    ensures LineBreakFree(TayText) && Segment(TayText) == Ok(TaySegments)
  {
    TayInitial();
    TaySplit();
    TayPieces();
    SegmentOf(TayText, Some(Plain("t")), Plain("ay"), None);
  }

  lemma TayDenormalizeFirst()
    ensures DenormGlide(DenormNucleus(DenormCoda(Tay))) == Ok(Tay.(nucleus := Some(Plain("ă")), coda := Some(Plain("y"))))
  {
    Untoned("aw");
    Untoned("i");
    Untoned("t");
    Untoned("y");
    Untoned("ă");
    var x1 := Tay.(coda := Some(Plain("y")));
    assert DenormCoda(Tay) == x1;
    var x2 := Tay.(nucleus := Some(Plain("ă")), coda := Some(Plain("y")));
    assert DenormNucleus(x1) == x2;
    assert DenormGlide(x2) == Ok(x2);
  }

  lemma TayDenormalizeInitial()
    ensures DenormInitial(Tay.(nucleus := Some(Plain("ă")), coda := Some(Plain("y")))) == Ok(Tay.(nucleus := Some(Plain("ă")), coda := Some(Plain("y"))))
  {
    var y := Tay.(nucleus := Some(Plain("ă")), coda := Some(Plain("y")));
    Untoned("t");
    Untoned("y");
    Untoned("ă");
    assert DenormInitial(y) == Ok(y);
  }

  lemma TayDenormalizeSpelling()
    ensures DeduplicateI(DenormQ(RemoveShortA(Tay.(nucleus := Some(Plain("ă")), coda := Some(Plain("y")))))) == Tay.(nucleus := Some(Plain("a")), coda := Some(Plain("y")))
  {
    var y := Tay.(nucleus := Some(Plain("ă")), coda := Some(Plain("y")));
    Untoned("a");
    Untoned("t");
    Untoned("y");
    Untoned("ă");
    var x1 := Tay.(nucleus := Some(Plain("a")), coda := Some(Plain("y")));
    assert RemoveShortA(y) == x1;
    assert DenormQ(x1) == x1;
    assert DeduplicateI(x1) == x1;
  }

  lemma TayDenormalizeTone()
    ensures DenormTone(Tay.(nucleus := Some(Plain("a")), coda := Some(Plain("y")))) == TaySegments
  {
    var y := Tay.(nucleus := Some(Plain("a")), coda := Some(Plain("y")));
    Untoned("a");
    Untoned("t");
    Untoned("y");
    assert DenormTone(y) == y;
  }

  lemma TayNormal()
    ensures Normal(Tay)
  {
    Untoned("aw");
    Untoned("i");
    Untoned("t");
  }

  lemma TayRoundTrip()
    ensures ParseVietnamese(TayText) == Ok(Tay) && EmitVietnamese(Tay) == Ok(TayText)
  {
    TaySegment();
    TayDenormalizeFirst();
    TayDenormalizeInitial();
    TayDenormalizeSpelling();
    TayDenormalizeTone();
    DenormalizeThrough(Tay, Tay.(nucleus := Some(Plain("ă")), coda := Some(Plain("y"))), Tay.(nucleus := Some(Plain("ă")), coda := Some(Plain("y"))), TaySegments);
    TayNormal();
    NormalizeUndoesDenormalize(Tay);
    RoundTrip(TayText, TaySegments, Tay);
  }

  // ai is (-, -, a, i, -): a before the offglide i stays a.

  const AiText := Plain("ai")
  const AiSegments := Slots(None, None, Some(Plain("a")), Some(Plain("i")), None)
  const Ai := Slots(None, None, Some(Plain("a")), Some(Plain("i")), None)

  lemma AiInitial()
    ensures MatchInitial(AiText) == None
  {
    InitialHeads();
    forall j | 0 <= j < |Initials| ensures !IsPrefix(Initials[j], AiText) {
      assert Heads[j] != 'a';
      Mismatch(Initials[j], AiText, 0);
    }
    FirstPrefixNone(Initials, AiText, 0);
  }

  lemma AiNotUy()
    ensures !UyRime(Plain("ai"))
  {
  }

  lemma AiOffglide()
    ensures ExtractSemivowel(Plain("ai")) == (Some(Plain("i")), Plain("a"))
  {
    assert Plain("ai")[..1] == Plain("a");
    assert [Plain("ai")[1]] == Plain("i");
  }

  lemma AiGlide()
    ensures ExtractGlide(Plain("a")) == (None, Plain("a"))
  {
    Untoned("a");
  }

  lemma AiSplit()
    ensures SplitRime(None, Plain("ai"), None) == AiSegments
  {
    AiNotUy();
    AiOffglide();
    AiGlide();
  }

  lemma AiPieces()
    ensures Pieces(None, Plain("ai"), None)
  {
  }

  lemma AiSegment()
    ensures LineBreakFree(AiText) && Segment(AiText) == Ok(AiSegments)
  {
    AiInitial();
    AiSplit();
    AiPieces();
    SegmentOf(AiText, None, Plain("ai"), None);
  }

  lemma AiDenormalizeFirst()
    ensures DenormGlide(DenormNucleus(DenormCoda(Ai))) == Ok(Ai)
  {
    Untoned("a");
    Untoned("i");
    assert DenormCoda(Ai) == Ai;
    assert DenormNucleus(Ai) == Ai;
    assert DenormGlide(Ai) == Ok(Ai);
  }

  lemma AiDenormalizeInitial()
    ensures DenormInitial(Ai) == Ok(Ai)
  {
    Untoned("a");
    Untoned("i");
    assert DenormInitial(Ai) == Ok(Ai);
  }

  lemma AiDenormalizeSpelling()
    ensures DeduplicateI(DenormQ(RemoveShortA(Ai))) == Ai
  {
    Untoned("a");
    Untoned("i");
    assert RemoveShortA(Ai) == Ai;
    assert DenormQ(Ai) == Ai;
    assert DeduplicateI(Ai) == Ai;
  }

  lemma AiDenormalizeTone()
    ensures DenormTone(Ai) == AiSegments
  {
    Untoned("a");
    Untoned("i");
    assert DenormTone(Ai) == Ai;
  }

  lemma AiNormal()
    ensures Normal(Ai)
  {
    Untoned("a");
    Untoned("i");
  }

  lemma AiRoundTrip()
    ensures ParseVietnamese(AiText) == Ok(Ai) && EmitVietnamese(Ai) == Ok(AiText)
  {
    AiSegment();
    AiDenormalizeFirst();
    AiDenormalizeInitial();
    AiDenormalizeSpelling();
    AiDenormalizeTone();
    DenormalizeThrough(Ai, Ai, Ai, AiSegments);
    AiNormal();
    NormalizeUndoesDenormalize(Ai);
    RoundTrip(AiText, AiSegments, Ai);
  }

  // heo is (h, -, e, u, -): the offglide o is u, written o again after e.

  const HeoText := Plain("h") + Plain("eo")
  const HeoSegments := Slots(Some(Plain("h")), None, Some(Plain("e")), Some(Plain("o")), None)
  const Heo := Slots(Some(Plain("h")), None, Some(Plain("e")), Some(Plain("u")), None)

  lemma HeoInitial()
    ensures MatchInitial(HeoText) == Some(Plain("h"))
  {
    InitialHeads();
    forall j | 0 <= j < 13 ensures !IsPrefix(Initials[j], HeoText) {
      assert Heads[j] != 'h';
      Mismatch(Initials[j], HeoText, 0);
    }
    FirstPrefixAt(Initials, HeoText, 13, 0);
  }

  lemma HeoNotUy()
    ensures !UyRime(Plain("eo"))
  {
  }

  lemma HeoOffglide()
    ensures ExtractSemivowel(Plain("eo")) == (Some(Plain("o")), Plain("e"))
  {
    assert Plain("eo")[..1] == Plain("e");
    assert [Plain("eo")[1]] == Plain("o");
  }

  lemma HeoGlide()
    ensures ExtractGlide(Plain("e")) == (None, Plain("e"))
  {
    Untoned("e");
  }

  lemma HeoSplit()
    ensures SplitRime(Some(Plain("h")), Plain("eo"), None) == HeoSegments
  {
    HeoNotUy();
    HeoOffglide();
    HeoGlide();
  }

  lemma HeoPieces()
    ensures Pieces(Some(Plain("h")), Plain("eo"), None)
  {
  }

  lemma HeoSegment()
    ensures LineBreakFree(HeoText) && Segment(HeoText) == Ok(HeoSegments)
  {
    HeoInitial();
    HeoSplit();
    HeoPieces();
    SegmentOf(HeoText, Some(Plain("h")), Plain("eo"), None);
  }

  lemma HeoDenormalizeFirst()
    ensures DenormGlide(DenormNucleus(DenormCoda(Heo))) == Ok(Heo.(coda := Some(Plain("o"))))
  {
    Untoned("e");
    Untoned("h");
    Untoned("o");
    Untoned("u");
    var x1 := Heo.(coda := Some(Plain("o")));
    assert DenormCoda(Heo) == x1;
    assert DenormNucleus(x1) == x1;
    assert DenormGlide(x1) == Ok(x1);
  }

  lemma HeoDenormalizeInitial()
    ensures DenormInitial(Heo.(coda := Some(Plain("o")))) == Ok(Heo.(coda := Some(Plain("o"))))
  {
    var y := Heo.(coda := Some(Plain("o")));
    Untoned("e");
    Untoned("h");
    Untoned("o");
    assert DenormInitial(y) == Ok(y);
  }

  lemma HeoDenormalizeSpelling()
    ensures DeduplicateI(DenormQ(RemoveShortA(Heo.(coda := Some(Plain("o")))))) == Heo.(coda := Some(Plain("o")))
  {
    var y := Heo.(coda := Some(Plain("o")));
    Untoned("e");
    Untoned("h");
    Untoned("o");
    assert RemoveShortA(y) == y;
    assert DenormQ(y) == y;
    assert DeduplicateI(y) == y;
  }

  lemma HeoDenormalizeTone()
    ensures DenormTone(Heo.(coda := Some(Plain("o")))) == HeoSegments
  {
    var y := Heo.(coda := Some(Plain("o")));
    Untoned("e");
    Untoned("h");
    Untoned("o");
    assert DenormTone(y) == y;
  }

  lemma HeoNormal()
    ensures Normal(Heo)
  {
    Untoned("e");
    Untoned("h");
    Untoned("u");
  }

  lemma HeoRoundTrip()
    ensures ParseVietnamese(HeoText) == Ok(Heo) && EmitVietnamese(Heo) == Ok(HeoText)
  {
    HeoSegment();
    HeoDenormalizeFirst();
    HeoDenormalizeInitial();
    HeoDenormalizeSpelling();
    HeoDenormalizeTone();
    DenormalizeThrough(Heo, Heo.(coda := Some(Plain("o"))), Heo.(coda := Some(Plain("o"))), HeoSegments);
    HeoNormal();
    NormalizeUndoesDenormalize(Heo);
    RoundTrip(HeoText, HeoSegments, Heo);
  }

  // táo is (t, -, a, u, s): the offglide o after a is u.

  const TaoText := Plain("t") + Marked("", 'a', S, "o")
  const TaoSegments := Slots(Some(Plain("t")), None, Some(Marked("", 'a', S, "")), Some(Plain("o")), None)
  const Tao := Slots(Some(Plain("t")), None, Some(Plain("a")), Some(Plain("u")), Some(S))

  lemma TaoInitial()
    ensures MatchInitial(TaoText) == Some(Plain("t"))
  {
    InitialHeads();
    forall j | 0 <= j < 28 ensures !IsPrefix(Initials[j], TaoText) {
      if j == 26 {
        Mismatch(Initials[26], TaoText, 1);
      } else if j == 27 {
        Mismatch(Initials[27], TaoText, 1);
      } else {
        assert Heads[j] != 't';
        Mismatch(Initials[j], TaoText, 0);
      }
    }
    FirstPrefixAt(Initials, TaoText, 28, 0);
  }

  lemma TaoNotUy()
    ensures !UyRime(Marked("", 'a', S, "o"))
  {
  }

  lemma TaoOffglide()
    ensures ExtractSemivowel(Marked("", 'a', S, "o")) == (Some(Plain("o")), Marked("", 'a', S, ""))
  {
    assert Marked("", 'a', S, "o")[..1] == Marked("", 'a', S, "");
    assert [Marked("", 'a', S, "o")[1]] == Plain("o");
  }

  lemma TaoGlide()
    ensures ExtractGlide(Marked("", 'a', S, "")) == (None, Marked("", 'a', S, ""))
  {
    MarkedTone("", 'a', S, "");
  }

  lemma TaoSplit()
    ensures SplitRime(Some(Plain("t")), Marked("", 'a', S, "o"), None) == TaoSegments
  {
    TaoNotUy();
    TaoOffglide();
    TaoGlide();
  }

  lemma TaoPieces()
    ensures Pieces(Some(Plain("t")), Marked("", 'a', S, "o"), None)
  {
  }

  lemma TaoSegment()
    ensures LineBreakFree(TaoText) && Segment(TaoText) == Ok(TaoSegments)
  {
    TaoInitial();
    TaoSplit();
    TaoPieces();
    SegmentOf(TaoText, Some(Plain("t")), Marked("", 'a', S, "o"), None);
  }

  lemma TaoDenormalizeFirst()
    ensures DenormGlide(DenormNucleus(DenormCoda(Tao))) == Ok(Tao.(coda := Some(Plain("o"))))
  {
    Untoned("a");
    Untoned("o");
    Untoned("t");
    Untoned("u");
    var x1 := Tao.(coda := Some(Plain("o")));
    assert DenormCoda(Tao) == x1;
    assert DenormNucleus(x1) == x1;
    assert DenormGlide(x1) == Ok(x1);
  }

  lemma TaoDenormalizeInitial()
    ensures DenormInitial(Tao.(coda := Some(Plain("o")))) == Ok(Tao.(coda := Some(Plain("o"))))
  {
    var y := Tao.(coda := Some(Plain("o")));
    Untoned("a");
    Untoned("o");
    Untoned("t");
    assert DenormInitial(y) == Ok(y);
  }

  lemma TaoDenormalizeSpelling()
    ensures DeduplicateI(DenormQ(RemoveShortA(Tao.(coda := Some(Plain("o")))))) == Tao.(coda := Some(Plain("o")))
  {
    var y := Tao.(coda := Some(Plain("o")));
    Untoned("a");
    Untoned("o");
    Untoned("t");
    assert RemoveShortA(y) == y;
    assert DenormQ(y) == y;
    assert DeduplicateI(y) == y;
  }

  lemma TaoDenormalizeTone()
    ensures DenormTone(Tao.(coda := Some(Plain("o")))) == TaoSegments
  {
    var y := Tao.(coda := Some(Plain("o")));
    Untoned("a");
    Untoned("o");
    Untoned("t");
    MarkedTone("", 'a', S, "");
    MarkedByAddTone("", 'a', S, "", false);
    var x1 := Tao.(nucleus := Some(Marked("", 'a', S, "")), coda := Some(Plain("o")), tone := None);
    assert DenormTone(y) == x1;
  }

  lemma TaoNormal()
    ensures Normal(Tao)
  {
    Untoned("a");
    Untoned("t");
    Untoned("u");
  }

  lemma TaoRoundTrip()
    ensures ParseVietnamese(TaoText) == Ok(Tao) && EmitVietnamese(Tao) == Ok(TaoText)
  {
    TaoSegment();
    TaoDenormalizeFirst();
    TaoDenormalizeInitial();
    TaoDenormalizeSpelling();
    TaoDenormalizeTone();
    DenormalizeThrough(Tao, Tao.(coda := Some(Plain("o"))), Tao.(coda := Some(Plain("o"))), TaoSegments);
    TaoNormal();
    NormalizeUndoesDenormalize(Tao);
    RoundTrip(TaoText, TaoSegments, Tao);
  }

  // đâu is (dd, -, aa, u, -): đ is dd.

  const DauText := Plain("đ") + Plain("âu")
  const DauSegments := Slots(Some(Plain("đ")), None, Some(Plain("â")), Some(Plain("u")), None)
  const Dau := Slots(Some(Plain("dd")), None, Some(Plain("aa")), Some(Plain("u")), None)

  lemma DauInitial()
    ensures MatchInitial(DauText) == Some(Plain("đ"))
  {
    InitialHeads();
    forall j | 0 <= j < 4 ensures !IsPrefix(Initials[j], DauText) {
      assert Heads[j] != 'đ';
      Mismatch(Initials[j], DauText, 0);
    }
    FirstPrefixAt(Initials, DauText, 4, 0);
  }

  lemma DauNotUy()
    ensures !UyRime(Plain("âu"))
  {
  }

  lemma DauOffglide()
    ensures ExtractSemivowel(Plain("âu")) == (Some(Plain("u")), Plain("â"))
  {
    assert Plain("âu")[..1] == Plain("â");
    assert [Plain("âu")[1]] == Plain("u");
  }

  lemma DauGlide()
    ensures ExtractGlide(Plain("â")) == (None, Plain("â"))
  {
    Untoned("â");
  }

  lemma DauSplit()
    ensures SplitRime(Some(Plain("đ")), Plain("âu"), None) == DauSegments
  {
    DauNotUy();
    DauOffglide();
    DauGlide();
  }

  lemma DauPieces()
    ensures Pieces(Some(Plain("đ")), Plain("âu"), None)
  {
  }

  lemma DauSegment()
    ensures LineBreakFree(DauText) && Segment(DauText) == Ok(DauSegments)
  {
    DauInitial();
    DauSplit();
    DauPieces();
    SegmentOf(DauText, Some(Plain("đ")), Plain("âu"), None);
  }

  lemma DauDenormalizeFirst()
    ensures DenormGlide(DenormNucleus(DenormCoda(Dau))) == Ok(Dau.(nucleus := Some(Plain("â"))))
  {
    Untoned("aa");
    Untoned("dd");
    Untoned("u");
    Untoned("â");
    assert DenormCoda(Dau) == Dau;
    var x1 := Dau.(nucleus := Some(Plain("â")));
    assert DenormNucleus(Dau) == x1;
    assert DenormGlide(x1) == Ok(x1);
  }

  lemma DauDenormalizeInitial()
    ensures DenormInitial(Dau.(nucleus := Some(Plain("â")))) == Ok(Dau.(initial := Some(Plain("đ")), nucleus := Some(Plain("â"))))
  {
    var y := Dau.(nucleus := Some(Plain("â")));
    Untoned("dd");
    Untoned("u");
    Untoned("â");
    Untoned("đ");
    var x1 := Dau.(initial := Some(Plain("đ")), nucleus := Some(Plain("â")));
    assert DenormInitial(y) == Ok(x1);
  }

  lemma DauDenormalizeSpelling()
    ensures DeduplicateI(DenormQ(RemoveShortA(Dau.(initial := Some(Plain("đ")), nucleus := Some(Plain("â")))))) == Dau.(initial := Some(Plain("đ")), nucleus := Some(Plain("â")))
  {
    var y := Dau.(initial := Some(Plain("đ")), nucleus := Some(Plain("â")));
    Untoned("u");
    Untoned("â");
    Untoned("đ");
    assert RemoveShortA(y) == y;
    assert DenormQ(y) == y;
    assert DeduplicateI(y) == y;
  }

  lemma DauDenormalizeTone()
    ensures DenormTone(Dau.(initial := Some(Plain("đ")), nucleus := Some(Plain("â")))) == DauSegments
  {
    var y := Dau.(initial := Some(Plain("đ")), nucleus := Some(Plain("â")));
    Untoned("u");
    Untoned("â");
    Untoned("đ");
    assert DenormTone(y) == y;
  }

  lemma DauNormal()
    ensures Normal(Dau)
  {
    Untoned("aa");
    Untoned("dd");
    Untoned("u");
  }

  lemma DauRoundTrip()
    ensures ParseVietnamese(DauText) == Ok(Dau) && EmitVietnamese(Dau) == Ok(DauText)
  {
    DauSegment();
    DauDenormalizeFirst();
    DauDenormalizeInitial();
    DauDenormalizeSpelling();
    DauDenormalizeTone();
    DenormalizeThrough(Dau, Dau.(nucleus := Some(Plain("â"))), Dau.(initial := Some(Plain("đ")), nucleus := Some(Plain("â"))), DauSegments);
    DauNormal();
    NormalizeUndoesDenormalize(Dau);
    RoundTrip(DauText, DauSegments, Dau);
  }

  // yêu is (-, -, ia, u, -): ia with no initial is spelled yê.

  const YeuText := Plain("yêu")
  const YeuSegments := Slots(None, None, Some(Plain("yê")), Some(Plain("u")), None)
  const Yeu := Slots(None, None, Some(Plain("ia")), Some(Plain("u")), None)

  lemma YeuInitial()
    ensures MatchInitial(YeuText) == None
  {
    InitialHeads();
    forall j | 0 <= j < |Initials| ensures !IsPrefix(Initials[j], YeuText) {
      assert Heads[j] != 'y';
      Mismatch(Initials[j], YeuText, 0);
    }
    FirstPrefixNone(Initials, YeuText, 0);
  }

  lemma YeuNotUy()
    ensures !UyRime(Plain("yêu"))
  {
  }

  lemma YeuOffglide()
    ensures ExtractSemivowel(Plain("yêu")) == (Some(Plain("u")), Plain("yê"))
  {
    assert Plain("yêu")[..2] == Plain("yê");
    assert [Plain("yêu")[2]] == Plain("u");
  }

  lemma YeuGlide()
    ensures ExtractGlide(Plain("yê")) == (None, Plain("yê"))
  {
    Untoned("yê");
  }

  lemma YeuSplit()
    ensures SplitRime(None, Plain("yêu"), None) == YeuSegments
  {
    YeuNotUy();
    YeuOffglide();
    YeuGlide();
  }

  lemma YeuPieces()
    ensures Pieces(None, Plain("yêu"), None)
  {
  }

  lemma YeuSegment()
    ensures LineBreakFree(YeuText) && Segment(YeuText) == Ok(YeuSegments)
  {
    YeuInitial();
    YeuSplit();
    YeuPieces();
    SegmentOf(YeuText, None, Plain("yêu"), None);
  }

  lemma YeuDenormalizeFirst()
    ensures DenormGlide(DenormNucleus(DenormCoda(Yeu))) == Ok(Yeu.(nucleus := Some(Plain("yê"))))
  {
    Untoned("ia");
    Untoned("u");
    Untoned("yê");
    assert DenormCoda(Yeu) == Yeu;
    var x1 := Yeu.(nucleus := Some(Plain("yê")));
    assert DenormNucleus(Yeu) == x1;
    assert DenormGlide(x1) == Ok(x1);
  }

  lemma YeuDenormalizeInitial()
    ensures DenormInitial(Yeu.(nucleus := Some(Plain("yê")))) == Ok(Yeu.(nucleus := Some(Plain("yê"))))
  {
    var y := Yeu.(nucleus := Some(Plain("yê")));
    Untoned("u");
    Untoned("yê");
    assert DenormInitial(y) == Ok(y);
  }

  lemma YeuDenormalizeSpelling()
    ensures DeduplicateI(DenormQ(RemoveShortA(Yeu.(nucleus := Some(Plain("yê")))))) == Yeu.(nucleus := Some(Plain("yê")))
  {
    var y := Yeu.(nucleus := Some(Plain("yê")));
    Untoned("u");
    Untoned("yê");
    assert RemoveShortA(y) == y;
    assert DenormQ(y) == y;
    assert DeduplicateI(y) == y;
  }

  lemma YeuDenormalizeTone()
    ensures DenormTone(Yeu.(nucleus := Some(Plain("yê")))) == YeuSegments
  {
    var y := Yeu.(nucleus := Some(Plain("yê")));
    Untoned("u");
    Untoned("yê");
    assert DenormTone(y) == y;
  }

  lemma YeuNormal()
    ensures Normal(Yeu)
  {
    Untoned("ia");
    Untoned("u");
  }

  lemma YeuRoundTrip()
    ensures ParseVietnamese(YeuText) == Ok(Yeu) && EmitVietnamese(Yeu) == Ok(YeuText)
  {
    YeuSegment();
    YeuDenormalizeFirst();
    YeuDenormalizeInitial();
    YeuDenormalizeSpelling();
    YeuDenormalizeTone();
    DenormalizeThrough(Yeu, Yeu.(nucleus := Some(Plain("yê"))), Yeu.(nucleus := Some(Plain("yê"))), YeuSegments);
    YeuNormal();
    NormalizeUndoesDenormalize(Yeu);
    RoundTrip(YeuText, YeuSegments, Yeu);
  }

  // gì is (gi, -, i, -, f): the initial gì takes the whole syllable, its i is doubled
  // into the nucleus and its tone mark goes to the tone slot; denormalize undoes both.

  const GiText := Marked("g", 'i', F, "")
  const GiSegments := Slots(Some(Marked("g", 'i', F, "")), None, None, None, None)
  const Gi := Slots(Some(Plain("gi")), None, Some(Plain("i")), None, Some(F))

  lemma GiInitial()
    ensures MatchInitial(GiText) == Some(Marked("g", 'i', F, ""))
  {
    InitialHeads();
    forall j | 0 <= j < 8 ensures !IsPrefix(Initials[j], GiText) {
      if j == 5 {
        Mismatch(Initials[5], GiText, 1);
      } else if j == 6 {
        Mismatch(Initials[6], GiText, 1);
      } else if j == 7 {
        Mismatch(Initials[7], GiText, 1);
      } else {
        assert Heads[j] != 'g';
        Mismatch(Initials[j], GiText, 0);
      }
    }
    assert Initials[8] == Marked("g", 'i', F, "");
    FirstPrefixAt(Initials, GiText, 8, 0);
  }

  lemma GiSplit()
    ensures SplitRime(Some(Marked("g", 'i', F, "")), [], None) == GiSegments
  {
  }

  lemma GiPieces()
    ensures Pieces(Some(Marked("g", 'i', F, "")), [], None)
  {
  }

  lemma GiSegment()
    ensures LineBreakFree(GiText) && Segment(GiText) == Ok(GiSegments)
  {
    GiInitial();
    GiSplit();
    GiPieces();
    SegmentOf(GiText, Some(Marked("g", 'i', F, "")), [], None);
  }

  lemma GiDenormalizeFirst()
    ensures DenormGlide(DenormNucleus(DenormCoda(Gi))) == Ok(Gi)
  {
    Untoned("gi");
    Untoned("i");
    assert DenormCoda(Gi) == Gi;
    assert DenormNucleus(Gi) == Gi;
    assert DenormGlide(Gi) == Ok(Gi);
  }

  lemma GiDenormalizeInitial()
    ensures DenormInitial(Gi) == Ok(Gi)
  {
    Untoned("gi");
    Untoned("i");
    assert DenormInitial(Gi) == Ok(Gi);
  }

  lemma GiDenormalizeSpelling()
    ensures DeduplicateI(DenormQ(RemoveShortA(Gi))) == Gi.(initial := Some(Marked("g", 'i', F, "")), nucleus := None, tone := None)
  {
    Untoned("gi");
    Untoned("i");
    MarkedTone("g", 'i', F, "");
    MarkedByAddTone("g", 'i', F, "", false);
    assert RemoveShortA(Gi) == Gi;
    assert DenormQ(Gi) == Gi;
    var x1 := Gi.(initial := Some(Marked("g", 'i', F, "")), nucleus := None, tone := None);
    assert DeduplicateI(Gi) == x1;
  }

  lemma GiDenormalizeTone()
    ensures DenormTone(Gi.(initial := Some(Marked("g", 'i', F, "")), nucleus := None, tone := None)) == GiSegments
  {
    var y := Gi.(initial := Some(Marked("g", 'i', F, "")), nucleus := None, tone := None);
    MarkedTone("g", 'i', F, "");
    assert DenormTone(y) == y;
  }

  lemma GiNormal()
    ensures Normal(Gi)
  {
    Untoned("gi");
    Untoned("i");
  }

  lemma GiRoundTrip()
    ensures ParseVietnamese(GiText) == Ok(Gi) && EmitVietnamese(Gi) == Ok(GiText)
  {
    GiSegment();
    GiDenormalizeFirst();
    GiDenormalizeInitial();
    GiDenormalizeSpelling();
    GiDenormalizeTone();
    DenormalizeThrough(Gi, Gi, Gi, GiSegments);
    GiNormal();
    NormalizeUndoesDenormalize(Gi);
    RoundTrip(GiText, GiSegments, Gi);
  }

  // giường is (gi, -, uwa, ng, f).

  const GiuongText := Plain("gi") + Marked("ư", 'ơ', F, "") + Plain("ng")
  const GiuongSegments := Slots(Some(Plain("gi")), None, Some(Marked("ư", 'ơ', F, "")), Some(Plain("ng")), None)
  const Giuong := Slots(Some(Plain("gi")), None, Some(Plain("uwa")), Some(Plain("ng")), Some(F))

  lemma GiuongInitial()
    ensures MatchInitial(GiuongText) == Some(Plain("gi"))
  {
    InitialHeads();
    forall j | 0 <= j < 6 ensures !IsPrefix(Initials[j], GiuongText) {
      if j == 5 {
        Mismatch(Initials[5], GiuongText, 1);
      } else {
        assert Heads[j] != 'g';
        Mismatch(Initials[j], GiuongText, 0);
      }
    }
    FirstPrefixAt(Initials, GiuongText, 6, 0);
  }

  lemma GiuongNotUy()
    ensures !UyRime(Marked("ư", 'ơ', F, ""))
  {
  }

  lemma GiuongGlide()
    ensures ExtractGlide(Marked("ư", 'ơ', F, "")) == (None, Marked("ư", 'ơ', F, ""))
  {
    MarkedTone("ư", 'ơ', F, "");
  }

  lemma GiuongSplit()
    ensures SplitRime(Some(Plain("gi")), Marked("ư", 'ơ', F, ""), Some(Plain("ng"))) == GiuongSegments
  {
    GiuongNotUy();
    GiuongGlide();
  }

  lemma GiuongPieces()
    ensures Pieces(Some(Plain("gi")), Marked("ư", 'ơ', F, ""), Some(Plain("ng")))
  {
  }

  lemma GiuongSegment()
    ensures LineBreakFree(GiuongText) && Segment(GiuongText) == Ok(GiuongSegments)
  {
    GiuongInitial();
    GiuongSplit();
    GiuongPieces();
    SegmentOf(GiuongText, Some(Plain("gi")), Marked("ư", 'ơ', F, ""), Some(Plain("ng")));
  }

  lemma GiuongDenormalizeFirst()
    ensures DenormGlide(DenormNucleus(DenormCoda(Giuong))) == Ok(Giuong.(nucleus := Some(Plain("ươ"))))
  {
    Untoned("gi");
    Untoned("ng");
    Untoned("uwa");
    Untoned("ươ");
    assert DenormCoda(Giuong) == Giuong;
    var x1 := Giuong.(nucleus := Some(Plain("ươ")));
    assert DenormNucleus(Giuong) == x1;
    assert DenormGlide(x1) == Ok(x1);
  }

  lemma GiuongDenormalizeInitial()
    ensures DenormInitial(Giuong.(nucleus := Some(Plain("ươ")))) == Ok(Giuong.(nucleus := Some(Plain("ươ"))))
  {
    var y := Giuong.(nucleus := Some(Plain("ươ")));
    Untoned("gi");
    Untoned("ng");
    Untoned("ươ");
    assert DenormInitial(y) == Ok(y);
  }

  lemma GiuongDenormalizeSpelling()
    ensures DeduplicateI(DenormQ(RemoveShortA(Giuong.(nucleus := Some(Plain("ươ")))))) == Giuong.(nucleus := Some(Plain("ươ")))
  {
    var y := Giuong.(nucleus := Some(Plain("ươ")));
    Untoned("gi");
    Untoned("ng");
    Untoned("ươ");
    assert RemoveShortA(y) == y;
    assert DenormQ(y) == y;
    assert DeduplicateI(y) == y;
  }

  lemma GiuongDenormalizeTone()
    ensures DenormTone(Giuong.(nucleus := Some(Plain("ươ")))) == GiuongSegments
  {
    var y := Giuong.(nucleus := Some(Plain("ươ")));
    Untoned("gi");
    Untoned("ng");
    Untoned("ươ");
    MarkedTone("ư", 'ơ', F, "");
    MarkedByAddTone("ư", 'ơ', F, "", false);
    var x1 := Giuong.(nucleus := Some(Marked("ư", 'ơ', F, "")), tone := None);
    assert DenormTone(y) == x1;
  }

  lemma GiuongNormal()
    ensures Normal(Giuong)
  {
    Untoned("gi");
    Untoned("ng");
    Untoned("uwa");
  }

  lemma GiuongRoundTrip()
    ensures ParseVietnamese(GiuongText) == Ok(Giuong) && EmitVietnamese(Giuong) == Ok(GiuongText)
  {
    GiuongSegment();
    GiuongDenormalizeFirst();
    GiuongDenormalizeInitial();
    GiuongDenormalizeSpelling();
    GiuongDenormalizeTone();
    DenormalizeThrough(Giuong, Giuong.(nucleus := Some(Plain("ươ"))), Giuong.(nucleus := Some(Plain("ươ"))), GiuongSegments);
    GiuongNormal();
    NormalizeUndoesDenormalize(Giuong);
    RoundTrip(GiuongText, GiuongSegments, Giuong);
  }

  // hỏa is (h, w, a, -, r): with no tone mark on the nucleus, the mark on the glide is
  // taken; it is written back hoả, with the mark on the nucleus.

  const HoaHookText := Plain("h") + Marked("", 'o', R, "a")
  const HoaHookSegments := Slots(Some(Plain("h")), Some(Marked("", 'o', R, "")), Some(Plain("a")), None, None)
  const HoaHook := Slots(Some(Plain("h")), Some(Plain("w")), Some(Plain("a")), None, Some(R))
  const HoaHookWritten := Slots(Some(Plain("h")), Some(Plain("o")), Some(Marked("", 'a', R, "")), None, None)

  lemma HoaHookInitial()
    ensures MatchInitial(HoaHookText) == Some(Plain("h"))
  {
    InitialHeads();
    forall j | 0 <= j < 13 ensures !IsPrefix(Initials[j], HoaHookText) {
      assert Heads[j] != 'h';
      Mismatch(Initials[j], HoaHookText, 0);
    }
    FirstPrefixAt(Initials, HoaHookText, 13, 0);
  }

  lemma HoaHookNotUy()
    ensures !UyRime(Marked("", 'o', R, "a"))
  {
  }

  lemma HoaHookOffglide()
    ensures ExtractSemivowel(Marked("", 'o', R, "a")) == (None, Marked("", 'o', R, "a"))
  {
  }

  lemma HoaHookGlide()
    ensures ExtractGlide(Marked("", 'o', R, "a")) == (Some(Marked("", 'o', R, "")), Plain("a"))
  {
    MarkedTone("", 'o', R, "a");
    assert [Marked("", 'o', R, "a")[0]] == Marked("", 'o', R, "") && [Marked("", 'o', R, "a")[1]] == Plain("a");
  }

  lemma HoaHookSplit()
    ensures SplitRime(Some(Plain("h")), Marked("", 'o', R, "a"), None) == HoaHookSegments
  {
    HoaHookNotUy();
    HoaHookOffglide();
    HoaHookGlide();
  }

  lemma HoaHookPieces()
    ensures Pieces(Some(Plain("h")), Marked("", 'o', R, "a"), None)
  {
  }

  lemma HoaHookSegment()
    ensures LineBreakFree(HoaHookText) && Segment(HoaHookText) == Ok(HoaHookSegments)
  {
    HoaHookInitial();
    HoaHookSplit();
    HoaHookPieces();
    SegmentOf(HoaHookText, Some(Plain("h")), Marked("", 'o', R, "a"), None);
  }

  lemma HoaHookNormalizeFirst()
    ensures AddShortA(NormQ(DuplicateI(NormTone(HoaHookSegments)))) == HoaHookSegments.(glide := Some(Plain("o")), tone := Some(R))
  {
    Untoned("a");
    Untoned("h");
    Untoned("o");
    MarkedTone("", 'o', R, "");
    var x1 := HoaHookSegments.(glide := Some(Plain("o")), tone := Some(R));
    assert NormTone(HoaHookSegments) == x1;
    assert DuplicateI(x1) == x1;
    assert NormQ(x1) == x1;
    assert AddShortA(x1) == x1;
  }

  lemma HoaHookNormalizeOnset()
    ensures NormGlide(NormInitial(HoaHook.(glide := Some(Plain("o"))))) == HoaHook
  {
    var y := HoaHook.(glide := Some(Plain("o")));
    Untoned("a");
    Untoned("h");
    Untoned("o");
    Untoned("w");
    assert NormInitial(y) == y;
    var x1 := HoaHook;
    assert NormGlide(y) == x1;
  }

  lemma HoaHookNormalizeLast()
    ensures NormCoda(NormNucleus(HoaHook)) == HoaHook
  {
    Untoned("a");
    Untoned("h");
    Untoned("w");
    assert NormNucleus(HoaHook) == HoaHook;
    assert NormCoda(HoaHook) == HoaHook;
  }

  lemma HoaHookParse()
    ensures ParseVietnamese(HoaHookText) == Ok(HoaHook)
  {
    HoaHookSegment();
    HoaHookNormalizeFirst();
    HoaHookNormalizeOnset();
    HoaHookNormalizeLast();
    NormalizeThrough(HoaHookSegments, HoaHookSegments.(glide := Some(Plain("o")), tone := Some(R)), HoaHook);
    Parses(HoaHookText, HoaHookSegments, HoaHook);
  }

  lemma HoaHookSpelling()
    ensures Spelling(HoaHookWritten) == Marked("ho", 'a', R, "")
  {
  }

  lemma HoaHookDenormalizeFirst()
    ensures DenormGlide(DenormNucleus(DenormCoda(HoaHook))) == Ok(HoaHook.(glide := Some(Plain("o"))))
  {
    Untoned("a");
    Untoned("h");
    Untoned("o");
    Untoned("w");
    assert DenormCoda(HoaHook) == HoaHook;
    assert DenormNucleus(HoaHook) == HoaHook;
    var x1 := HoaHook.(glide := Some(Plain("o")));
    assert DenormGlide(HoaHook) == Ok(x1);
  }

  lemma HoaHookDenormalizeInitial()
    ensures DenormInitial(HoaHook.(glide := Some(Plain("o")))) == Ok(HoaHook.(glide := Some(Plain("o"))))
  {
    var y := HoaHook.(glide := Some(Plain("o")));
    Untoned("a");
    Untoned("h");
    Untoned("o");
    assert DenormInitial(y) == Ok(y);
  }

  lemma HoaHookDenormalizeSpelling()
    ensures DeduplicateI(DenormQ(RemoveShortA(HoaHook.(glide := Some(Plain("o")))))) == HoaHook.(glide := Some(Plain("o")))
  {
    var y := HoaHook.(glide := Some(Plain("o")));
    Untoned("a");
    Untoned("h");
    Untoned("o");
    assert RemoveShortA(y) == y;
    assert DenormQ(y) == y;
    assert DeduplicateI(y) == y;
  }

  lemma HoaHookDenormalizeTone()
    ensures DenormTone(HoaHook.(glide := Some(Plain("o")))) == HoaHookWritten
  {
    var y := HoaHook.(glide := Some(Plain("o")));
    Untoned("a");
    Untoned("h");
    Untoned("o");
    MarkedTone("", 'a', R, "");
    MarkedByAddTone("", 'a', R, "", true);
    var x1 := HoaHook.(glide := Some(Plain("o")), nucleus := Some(Marked("", 'a', R, "")), tone := None);
    assert DenormTone(y) == x1;
  }

  lemma HoaHookRoundTrip()
    ensures ParseVietnamese(HoaHookText) == Ok(HoaHook)
    ensures EmitVietnamese(HoaHook) == Ok(Marked("ho", 'a', R, ""))
  {
    HoaHookParse();
    HoaHookDenormalizeFirst();
    HoaHookDenormalizeInitial();
    HoaHookDenormalizeSpelling();
    HoaHookDenormalizeTone();
    DenormalizeThrough(HoaHook, HoaHook.(glide := Some(Plain("o"))), HoaHook.(glide := Some(Plain("o"))), HoaHookWritten);
    HoaHookSpelling();
  }

  // túy is (t, w, i, -, s), written back tuý.

  const TuyAcuteText := Plain("t") + Marked("", 'u', S, "y")
  const TuyAcuteSegments := Slots(Some(Plain("t")), Some(Marked("", 'u', S, "")), Some(Plain("y")), None, None)
  const TuyAcute := Slots(Some(Plain("t")), Some(Plain("w")), Some(Plain("i")), None, Some(S))
  const TuyAcuteWritten := Slots(Some(Plain("t")), Some(Plain("u")), Some(Marked("", 'y', S, "")), None, None)

  lemma TuyAcuteInitial()
    ensures MatchInitial(TuyAcuteText) == Some(Plain("t"))
  {
    InitialHeads();
    forall j | 0 <= j < 28 ensures !IsPrefix(Initials[j], TuyAcuteText) {
      if j == 26 {
        Mismatch(Initials[26], TuyAcuteText, 1);
      } else if j == 27 {
        Mismatch(Initials[27], TuyAcuteText, 1);
      } else {
        assert Heads[j] != 't';
        Mismatch(Initials[j], TuyAcuteText, 0);
      }
    }
    FirstPrefixAt(Initials, TuyAcuteText, 28, 0);
  }

  lemma TuyAcuteOffglide()
    ensures ExtractSemivowel(Plain("y")) == (None, Plain("y"))
  {
  }

  lemma TuyAcuteSplit()
    ensures SplitRime(Some(Plain("t")), Marked("", 'u', S, "y"), None) == TuyAcuteSegments
  {
    TuyAcuteOffglide();
    assert UyRime(Marked("", 'u', S, "y"));
    assert [Marked("", 'u', S, "y")[0]] == Marked("", 'u', S, "");
    assert Marked("", 'u', S, "y")[1..] == Plain("y");
  }

  lemma TuyAcutePieces()
    ensures Pieces(Some(Plain("t")), Marked("", 'u', S, "y"), None)
  {
  }

  lemma TuyAcuteSegment()
    ensures LineBreakFree(TuyAcuteText) && Segment(TuyAcuteText) == Ok(TuyAcuteSegments)
  {
    TuyAcuteInitial();
    TuyAcuteSplit();
    TuyAcutePieces();
    SegmentOf(TuyAcuteText, Some(Plain("t")), Marked("", 'u', S, "y"), None);
  }

  lemma TuyAcuteNormalizeFirst()
    ensures AddShortA(NormQ(DuplicateI(NormTone(TuyAcuteSegments)))) == TuyAcuteSegments.(glide := Some(Plain("u")), tone := Some(S))
  {
    Untoned("t");
    Untoned("u");
    Untoned("y");
    MarkedTone("", 'u', S, "");
    var x1 := TuyAcuteSegments.(glide := Some(Plain("u")), tone := Some(S));
    assert NormTone(TuyAcuteSegments) == x1;
    assert DuplicateI(x1) == x1;
    assert NormQ(x1) == x1;
    assert AddShortA(x1) == x1;
  }

  lemma TuyAcuteNormalizeOnset()
    ensures NormGlide(NormInitial(TuyAcute.(glide := Some(Plain("u")), nucleus := Some(Plain("y"))))) == TuyAcute.(nucleus := Some(Plain("y")))
  {
    var y := TuyAcute.(glide := Some(Plain("u")), nucleus := Some(Plain("y")));
    Untoned("t");
    Untoned("u");
    Untoned("w");
    Untoned("y");
    assert NormInitial(y) == y;
    var x1 := TuyAcute.(nucleus := Some(Plain("y")));
    assert NormGlide(y) == x1;
  }

  lemma TuyAcuteNormalizeLast()
    ensures NormCoda(NormNucleus(TuyAcute.(nucleus := Some(Plain("y"))))) == TuyAcute
  {
    var y := TuyAcute.(nucleus := Some(Plain("y")));
    Untoned("i");
    Untoned("t");
    Untoned("w");
    Untoned("y");
    assert NucleusCode("y") == Some("i");
    var x1 := TuyAcute;
    assert NormNucleus(y) == x1;
    assert NormCoda(x1) == x1;
  }

  lemma TuyAcuteParse()
    ensures ParseVietnamese(TuyAcuteText) == Ok(TuyAcute)
  {
    TuyAcuteSegment();
    TuyAcuteNormalizeFirst();
    TuyAcuteNormalizeOnset();
    TuyAcuteNormalizeLast();
    NormalizeThrough(TuyAcuteSegments, TuyAcuteSegments.(glide := Some(Plain("u")), tone := Some(S)), TuyAcute);
    Parses(TuyAcuteText, TuyAcuteSegments, TuyAcute);
  }

  lemma TuyAcuteSpelling()
    ensures Spelling(TuyAcuteWritten) == Marked("tu", 'y', S, "")
  {
  }

  lemma TuyAcuteDenormalizeFirst()
    ensures DenormGlide(DenormNucleus(DenormCoda(TuyAcute))) == Ok(TuyAcute.(glide := Some(Plain("u")), nucleus := Some(Plain("y"))))
  {
    Untoned("i");
    Untoned("t");
    Untoned("u");
    Untoned("w");
    Untoned("y");
    assert DenormCoda(TuyAcute) == TuyAcute;
    var x1 := TuyAcute.(nucleus := Some(Plain("y")));
    assert DenormNucleus(TuyAcute) == x1;
    var x2 := TuyAcute.(glide := Some(Plain("u")), nucleus := Some(Plain("y")));
    assert DenormGlide(x1) == Ok(x2);
  }

  lemma TuyAcuteDenormalizeInitial()
    ensures DenormInitial(TuyAcute.(glide := Some(Plain("u")), nucleus := Some(Plain("y")))) == Ok(TuyAcute.(glide := Some(Plain("u")), nucleus := Some(Plain("y"))))
  {
    var y := TuyAcute.(glide := Some(Plain("u")), nucleus := Some(Plain("y")));
    Untoned("t");
    Untoned("u");
    Untoned("y");
    assert DenormInitial(y) == Ok(y);
  }

  lemma TuyAcuteDenormalizeSpelling()
    ensures DeduplicateI(DenormQ(RemoveShortA(TuyAcute.(glide := Some(Plain("u")), nucleus := Some(Plain("y")))))) == TuyAcute.(glide := Some(Plain("u")), nucleus := Some(Plain("y")))
  {
    var y := TuyAcute.(glide := Some(Plain("u")), nucleus := Some(Plain("y")));
    Untoned("t");
    Untoned("u");
    Untoned("y");
    assert RemoveShortA(y) == y;
    assert DenormQ(y) == y;
    assert DeduplicateI(y) == y;
  }

  lemma TuyAcuteDenormalizeTone()
    ensures DenormTone(TuyAcute.(glide := Some(Plain("u")), nucleus := Some(Plain("y")))) == TuyAcuteWritten
  {
    var y := TuyAcute.(glide := Some(Plain("u")), nucleus := Some(Plain("y")));
    Untoned("t");
    Untoned("u");
    Untoned("y");
    MarkedTone("", 'y', S, "");
    MarkedByAddTone("", 'y', S, "", true);
    var x1 := TuyAcute.(glide := Some(Plain("u")), nucleus := Some(Marked("", 'y', S, "")), tone := None);
    assert DenormTone(y) == x1;
  }

  lemma TuyAcuteRoundTrip()
    ensures ParseVietnamese(TuyAcuteText) == Ok(TuyAcute)
    ensures EmitVietnamese(TuyAcute) == Ok(Marked("tu", 'y', S, ""))
  {
    TuyAcuteParse();
    TuyAcuteDenormalizeFirst();
    TuyAcuteDenormalizeInitial();
    TuyAcuteDenormalizeSpelling();
    TuyAcuteDenormalizeTone();
    DenormalizeThrough(TuyAcute, TuyAcute.(glide := Some(Plain("u")), nucleus := Some(Plain("y"))), TuyAcute.(glide := Some(Plain("u")), nucleus := Some(Plain("y"))), TuyAcuteWritten);
    TuyAcuteSpelling();
  }

  // ký is (k, -, i, -, s), written back kí: after an initial, with no glide and no
  // coda, i is spelled i.

  const KyAcuteText := Plain("k") + Marked("", 'y', S, "")
  const KyAcuteSegments := Slots(Some(Plain("k")), None, Some(Marked("", 'y', S, "")), None, None)
  const KyAcute := Slots(Some(Plain("k")), None, Some(Plain("i")), None, Some(S))
  const KyAcuteWritten := Slots(Some(Plain("k")), None, Some(Marked("", 'i', S, "")), None, None)

  lemma KyAcuteInitial()
    ensures MatchInitial(KyAcuteText) == Some(Plain("k"))
  {
    InitialHeads();
    forall j | 0 <= j < 15 ensures !IsPrefix(Initials[j], KyAcuteText) {
      if j == 14 {
        Mismatch(Initials[14], KyAcuteText, 1);
      } else {
        assert Heads[j] != 'k';
        Mismatch(Initials[j], KyAcuteText, 0);
      }
    }
    FirstPrefixAt(Initials, KyAcuteText, 15, 0);
  }

  lemma KyAcuteOffglide()
    ensures ExtractSemivowel(Marked("", 'y', S, "")) == (None, Marked("", 'y', S, ""))
  {
  }

  lemma KyAcuteGlide()
    ensures ExtractGlide(Marked("", 'y', S, "")) == (None, Marked("", 'y', S, ""))
  {
    MarkedTone("", 'y', S, "");
  }

  lemma KyAcuteSplit()
    ensures SplitRime(Some(Plain("k")), Marked("", 'y', S, ""), None) == KyAcuteSegments
  {
    KyAcuteOffglide();
    KyAcuteGlide();
  }

  lemma KyAcutePieces()
    ensures Pieces(Some(Plain("k")), Marked("", 'y', S, ""), None)
  {
  }

  lemma KyAcuteSegment()
    ensures LineBreakFree(KyAcuteText) && Segment(KyAcuteText) == Ok(KyAcuteSegments)
  {
    KyAcuteInitial();
    KyAcuteSplit();
    KyAcutePieces();
    SegmentOf(KyAcuteText, Some(Plain("k")), Marked("", 'y', S, ""), None);
  }

  lemma KyAcuteNormalizeFirst()
    ensures AddShortA(NormQ(DuplicateI(NormTone(KyAcuteSegments)))) == KyAcuteSegments.(nucleus := Some(Plain("y")), tone := Some(S))
  {
    Untoned("k");
    Untoned("y");
    MarkedTone("", 'y', S, "");
    var x1 := KyAcuteSegments.(nucleus := Some(Plain("y")), tone := Some(S));
    assert NormTone(KyAcuteSegments) == x1;
    assert DuplicateI(x1) == x1;
    assert NormQ(x1) == x1;
    assert AddShortA(x1) == x1;
  }

  lemma KyAcuteNormalizeOnset()
    ensures NormGlide(NormInitial(KyAcute.(nucleus := Some(Plain("y"))))) == KyAcute.(nucleus := Some(Plain("y")))
  {
    var y := KyAcute.(nucleus := Some(Plain("y")));
    Untoned("k");
    Untoned("y");
    assert NormInitial(y) == y;
    assert NormGlide(y) == y;
  }

  lemma KyAcuteNormalizeLast()
    ensures NormCoda(NormNucleus(KyAcute.(nucleus := Some(Plain("y"))))) == KyAcute
  {
    var y := KyAcute.(nucleus := Some(Plain("y")));
    Untoned("i");
    Untoned("k");
    Untoned("y");
    assert NucleusCode("y") == Some("i");
    var x1 := KyAcute;
    assert NormNucleus(y) == x1;
    assert NormCoda(x1) == x1;
  }

  lemma KyAcuteParse()
    ensures ParseVietnamese(KyAcuteText) == Ok(KyAcute)
  {
    KyAcuteSegment();
    KyAcuteNormalizeFirst();
    KyAcuteNormalizeOnset();
    KyAcuteNormalizeLast();
    NormalizeThrough(KyAcuteSegments, KyAcuteSegments.(nucleus := Some(Plain("y")), tone := Some(S)), KyAcute);
    Parses(KyAcuteText, KyAcuteSegments, KyAcute);
  }

  lemma KyAcuteSpelling()
    ensures Spelling(KyAcuteWritten) == Marked("k", 'i', S, "")
  {
  }

  lemma KyAcuteDenormalizeFirst()
    ensures DenormGlide(DenormNucleus(DenormCoda(KyAcute))) == Ok(KyAcute)
  {
    Untoned("i");
    Untoned("k");
    assert DenormCoda(KyAcute) == KyAcute;
    assert DenormNucleus(KyAcute) == KyAcute;
    assert DenormGlide(KyAcute) == Ok(KyAcute);
  }

  lemma KyAcuteDenormalizeInitial()
    ensures DenormInitial(KyAcute) == Ok(KyAcute)
  {
    Untoned("i");
    Untoned("k");
    assert DenormInitial(KyAcute) == Ok(KyAcute);
  }

  lemma KyAcuteDenormalizeSpelling()
    ensures DeduplicateI(DenormQ(RemoveShortA(KyAcute))) == KyAcute
  {
    Untoned("i");
    Untoned("k");
    assert RemoveShortA(KyAcute) == KyAcute;
    assert DenormQ(KyAcute) == KyAcute;
    assert DeduplicateI(KyAcute) == KyAcute;
  }

  lemma KyAcuteDenormalizeTone()
    ensures DenormTone(KyAcute) == KyAcuteWritten
  {
    Untoned("i");
    Untoned("k");
    MarkedTone("", 'i', S, "");
    MarkedByAddTone("", 'i', S, "", true);
    var x1 := KyAcute.(nucleus := Some(Marked("", 'i', S, "")), tone := None);
    assert DenormTone(KyAcute) == x1;
  }

  lemma KyAcuteRoundTrip()
    ensures ParseVietnamese(KyAcuteText) == Ok(KyAcute)
    ensures EmitVietnamese(KyAcute) == Ok(Marked("k", 'i', S, ""))
  {
    KyAcuteParse();
    KyAcuteDenormalizeFirst();
    KyAcuteDenormalizeInitial();
    KyAcuteDenormalizeSpelling();
    KyAcuteDenormalizeTone();
    DenormalizeThrough(KyAcute, KyAcute, KyAcute, KyAcuteWritten);
    KyAcuteSpelling();
  }
}
