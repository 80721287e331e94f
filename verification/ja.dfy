/**
 * The Japanese helpers of cjkvo/ja.py: small-kana normalization, the two romaji
 * rewriters, and the parser that splits one romaji syllable into initial, medial,
 * nucleus and final.
 */
module Japanese {
  import opened Results
  import opened Sequences

  // ----------------------------------------------------------------------------
  // normalize_katakana_size

  /** The small katakana the source enlarges: ァィゥェォッャュョヮ. */
  const SmallKana: string := "ァィゥェォッャュョヮ"

  /** The letter normalize_katakana_size writes for `c`: a small kana becomes the next
    * code point (its full-size form), any other character stays. */
  function Enlarged(c: char): (d: char)
    ensures c in SmallKana ==> d as int == c as int + 1
    ensures c !in SmallKana ==> d == c
  {
    if c in SmallKana then (c as int + 1) as char else c
  }

  /** The full-size form of a small kana is not small. */
  lemma EnlargedIsNotSmall(c: char)
    ensures Enlarged(c) !in SmallKana || c !in SmallKana
  {
    if c in SmallKana {
      assert c in ['ァ', 'ィ', 'ゥ', 'ェ', 'ォ', 'ッ', 'ャ', 'ュ', 'ョ', 'ヮ'];
    }
  }

  /** The text normalize_katakana_size returns. */
  function KatakanaSized(s: string): (r: string)
    ensures |r| == |s|
    ensures forall i :: 0 <= i < |s| ==> r[i] == Enlarged(s[i])
  {
    seq(|s|, i requires 0 <= i < |s| => Enlarged(s[i]))
  }

  /** normalize_katakana_size: builds the result one character at a time. No small kana
    * is left in it. */
  method NormalizeKatakanaSize(s: string) returns (ret: string)
    ensures ret == KatakanaSized(s)
    ensures forall i :: 0 <= i < |ret| ==> ret[i] !in SmallKana
  {
    ret := "";
    for k := 0 to |s|
      invariant ret == KatakanaSized(s[..k])
      invariant forall i :: 0 <= i < |ret| ==> ret[i] !in SmallKana
    {
      var c := s[k];
      if c in SmallKana {
        EnlargedIsNotSmall(c);
        ret := ret + [(c as int + 1) as char];
      } else {
        ret := ret + [c];
      }
      assert s[..k + 1][..k] == s[..k];
    }
    assert s[..|s|] == s;
  }

  // ----------------------------------------------------------------------------
  // str.replace and the two romaji rewriters

  /** Python's `s.replace(pat, rep)`: every occurrence of `pat`, scanning left to right
    * without overlaps, becomes `rep`. A text with no occurrence comes back unchanged, one
    * that is the pattern alone becomes the replacement, and a replacement no longer than
    * the pattern never lengthens the text. */
  function Replace(s: string, pat: string, rep: string): (r: string)
    requires pat != ""
    ensures !IsInfix(pat, s) ==> r == s
    ensures s == pat ==> r == rep
    ensures |rep| <= |pat| ==> |r| <= |s|
    decreases |s|
  {
    if |s| < |pat| then s
    else if s[..|pat|] == pat then
      assert s == pat ==> s[|pat|..] == "";
      rep + Replace(s[|pat|..], pat, rep)
    else
      assert s == [s[0]] + s[1..];
      assert !IsPrefix(pat, s);
      [s[0]] + Replace(s[1..], pat, rep)
  }

  /** normalize_romaji: `dyi` becomes `di`, then `fu` becomes `hu`. The text never grows,
    * and one with neither `dyi` nor `fu` comes back unchanged. */
  function NormalizeRomaji(s: string): (r: string)
    ensures |r| <= |s|
    ensures !IsInfix("dyi", s) && !IsInfix("fu", s) ==> r == s
  {
    Replace(Replace(s, "dyi", "di"), "fu", "hu")
  }

  /** normalize_glides: `uw` becomes `w`, then `iy` becomes `y`. The text never grows,
    * and one with neither `uw` nor `iy` comes back unchanged. */
  function NormalizeGlides(s: string): (r: string)
    ensures |r| <= |s|
    ensures !IsInfix("uw", s) && !IsInfix("iy", s) ==> r == s
  {
    Replace(Replace(s, "uw", "w"), "iy", "y")
  }

  /** A text with no letter of the pattern's first letter does not contain it. */
  lemma NotInfix(pat: string, s: string)
    requires pat != "" && pat[0] !in s
    ensures !IsInfix(pat, s)
  {
    if IsInfix(pat, s) {
      InfixHead(pat, s);
    }
  }

  /** normalize_romaji on the spellings it exists for: `dyi` is read as `di` and `fu`
    * as `hu`. */
  lemma RomajiRewrites()
    ensures NormalizeRomaji("dyi") == "di" && NormalizeRomaji("fu") == "hu"
  {
    assert Replace("dyi", "dyi", "di") == "di";
    NotInfix("fu", "di");
    NotInfix("dyi", "fu");
  }

  /** normalize_glides on the spellings it exists for, the enlarged ゎ and ゃ: `uwa` is
    * read as `wa` and `kiya` as `kya`. */
  lemma GlideRewrites()
    ensures NormalizeGlides("uwa") == "wa" && NormalizeGlides("kiya") == "kya"
  {
    assert Replace("uwa", "uw", "w") == "wa";
    NotInfix("iy", "wa");
    NotInfix("uw", "kiya");
    assert Replace("kiya", "iy", "y") == "kya";
  }

  // ----------------------------------------------------------------------------
  // parse_romaji

  const Initials: string := "kgsztdnhbmr"
  const Medials: seq<string> := ["wy", "w", "y"]
  const Vowels: string := "aiueo"
  const Finals: seq<string> := ["i", "u", "ki", "ku", "ti", "tu", "hu", "mu", "n"]

  /** The four groups of the match; an unmatched group is `None`. */
  datatype Romaji = Romaji(initial: Option<string>, medial: Option<string>, nucleus: string, final: Option<string>)

  /** The ValueError parse_romaji raises. */
  datatype RomajiError = UnableToParse

  function OrEmpty(o: Option<string>): string {
    if o.Some? then o.value else ""
  }

  /** The present groups written one after the other, followed by `lineBreak`. */
  function Written(r: Romaji, lineBreak: string): string {
    OrEmpty(r.initial) + (OrEmpty(r.medial) + (r.nucleus + (OrEmpty(r.final) + lineBreak)))
  }

  /** The groups as the pattern `^(initial)?(medial)?(nucleus)(final)?$` allows them: each
    * present group one of its alternatives, and together spelling `s`, which may carry one
    * line break at the end (where Python's `$` also matches). */
  predicate Spells(r: Romaji, s: string) {
    && (r.initial.Some? ==> |r.initial.value| == 1 && r.initial.value[0] in Initials)
    && (r.medial.Some? ==> r.medial.value in Medials)
    && |r.nucleus| == 1 && r.nucleus[0] in Vowels
    && (r.final.Some? ==> r.final.value in Finals)
    && (s == Written(r, "") || s == Written(r, "\n"))
  }

  /** The medial at the start of `t`, if any, tried in the pattern's order. */
  function MedialAt(t: string): (m: Option<string>)
    ensures m.Some? ==> m.value in Medials
    ensures IsPrefix(OrEmpty(m), t)
  {
    if |t| >= 2 && t[..2] == "wy" then Some("wy")
    else if t != "" && t[0] == 'w' then Some("w")
    else if t != "" && t[0] == 'y' then Some("y")
    else None
  }

  /** Before a vowel, the medial found is the one written. */
  lemma MedialAtComplete(m: Option<string>, u: string)
    requires m.Some? ==> m.value in Medials
    requires u != "" && u[0] in Vowels
    ensures MedialAt(OrEmpty(m) + u) == m
  {
    var t := OrEmpty(m) + u;
    if m == None {
      assert t == u && t[0] != 'w' && t[0] != 'y';
    } else if m == Some("wy") {
      assert t[..2] == "wy";
    } else if m == Some("w") {
      assert t[0] == 'w' && t[1] == u[0];
    } else {
      assert m == Some("y");
      assert t[0] == 'y';
    }
  }

  /** The line break that ends `rest`, if any, as a text. */
  function TrailingBreak(rest: string): string {
    if rest != "" && rest[|rest| - 1] == '\n' then "\n" else ""
  }

  /** The final group for what follows the nucleus: all of it but a last line break,
    * if any; `Some(None)` when nothing but at most that line break follows. */
  function FinalOf(rest: string): (f: Option<Option<string>>)
    ensures f.Some? ==> (f.value.Some? ==> f.value.value in Finals) &&
                        rest == OrEmpty(f.value) + TrailingBreak(rest)
  {
    var body := if TrailingBreak(rest) == "" then rest else rest[..|rest| - 1];
    assert rest == body + TrailingBreak(rest);
    if body == "" then Some(None)
    else if body in Finals then Some(Some(body))
    else None
  }

  /** No final ends in a line break. */
  lemma FinalsEndInLetters(f: string)
    requires f in Finals
    ensures f != "" && f[|f| - 1] != '\n'
  {
  }

  /** A final, with or without a line break after it, is found as written. */
  lemma FinalOfComplete(f: Option<string>, lineBreak: string)
    requires f.Some? ==> f.value in Finals
    requires lineBreak == "" || lineBreak == "\n"
    ensures FinalOf(OrEmpty(f) + lineBreak) == Some(f)
  {
    var rest := OrEmpty(f) + lineBreak;
    if f.Some? {
      FinalsEndInLetters(f.value);
    }
    if lineBreak == "\n" {
      assert TrailingBreak(rest) == "\n";
      assert rest[..|rest| - 1] == OrEmpty(f);
    } else {
      assert rest == OrEmpty(f);
      assert TrailingBreak(rest) == "";
    }
  }

  /** The initial group: the first letter, when it is one of the initials. */
  function InitialOf(s: string): (i: Option<string>)
    ensures i.Some? ==> |i.value| == 1 && i.value[0] in Initials
    ensures IsPrefix(OrEmpty(i), s)
  {
    if s != "" && s[0] in Initials then Some(s[..1]) else None
  }

  /** Before a letter that is no initial, the initial found is the one written. */
  lemma InitialOfComplete(i: Option<string>, t: string)
    requires i.Some? ==> |i.value| == 1 && i.value[0] in Initials
    requires t != "" && t[0] !in Initials
    ensures InitialOf(OrEmpty(i) + t) == i
  {
    if i.Some? {
      assert (i.value + t)[..1] == i.value;
    }
  }

  /** parse_romaji: the initial is a first letter among the initials, the medial the
    * `wy`, `w` or `y` after it, the nucleus the vowel after that, and the final the rest.
    * A text of any other shape is refused. What it returns is a decomposition the
    * pattern allows. */
  function ParseRomaji(s: string): (r: Result<Romaji, RomajiError>)
    ensures r.Err? ==> r.error == UnableToParse
    ensures r.Ok? ==> Spells(r.value, s)
  {
    var initial := InitialOf(s);
    var t := s[|OrEmpty(initial)|..];
    var medial := MedialAt(t);
    var u := t[|OrEmpty(medial)|..];
    if u == "" || u[0] !in Vowels then Err(UnableToParse)
    else
      var final := FinalOf(u[1..]);
      if final.None? then Err(UnableToParse)
      else
        var r := Romaji(initial, medial, u[..1], final.value);
        PrefixSplit(OrEmpty(initial), s);
        PrefixSplit(OrEmpty(medial), t);
        PrefixSplit(r.nucleus, u);
        var lineBreak := TrailingBreak(u[1..]);
        assert u[1..] == OrEmpty(r.final) + lineBreak;
        assert s == Written(r, lineBreak);
        Ok(r)
  }

  /** A medial starts with a letter that is no initial. */
  lemma MedialsAreNoInitials(m: string)
    requires m in Medials
    ensures m != "" && m[0] !in Initials
  {
  }

  /** No vowel is an initial. */
  lemma VowelsAreNoInitials(c: char)
    requires c in Vowels
    ensures c !in Initials
  {
  }

  /** After the medial: the nucleus and the final, with or without a line break, are
    * found as written. */
  lemma NucleusAndFinalComplete(nucleus: string, f: Option<string>, lineBreak: string)
    requires |nucleus| == 1 && nucleus[0] in Vowels
    requires f.Some? ==> f.value in Finals
    requires lineBreak == "" || lineBreak == "\n"
    ensures var u := nucleus + (OrEmpty(f) + lineBreak);
            u != "" && u[0] in Vowels && u[..1] == nucleus && FinalOf(u[1..]) == Some(f)
  {
    DropPrefix(nucleus, OrEmpty(f) + lineBreak);
    FinalOfComplete(f, lineBreak);
  }

  /** Every decomposition the pattern allows is the one parse_romaji returns: the parse is
    * complete and unique. */
  lemma ParseRomajiComplete(r: Romaji, s: string)
    requires Spells(r, s)
    ensures ParseRomaji(s) == Ok(r)
  {
    var lineBreak := if s == Written(r, "") then "" else "\n";
    var u := r.nucleus + (OrEmpty(r.final) + lineBreak);
    var t := OrEmpty(r.medial) + u;
    assert s == OrEmpty(r.initial) + t;
    assert t[0] !in Initials by {
      if r.medial.Some? {
        MedialsAreNoInitials(r.medial.value);
        assert t[0] == r.medial.value[0];
      } else {
        VowelsAreNoInitials(r.nucleus[0]);
        assert t[0] == r.nucleus[0];
      }
    }
    InitialOfComplete(r.initial, t);
    DropPrefix(OrEmpty(r.initial), t);
    NucleusAndFinalComplete(r.nucleus, r.final, lineBreak);
    MedialAtComplete(r.medial, u);
    DropPrefix(OrEmpty(r.medial), u);
  }

  /** parse_japanese, given the Kunrei-shiki romanization of its input: the two
    * rewriters, then the parser. */
  function ParseJapanese(romaji: string): (r: Result<Romaji, RomajiError>)
    ensures r.Ok? ==> Spells(r.value, NormalizeGlides(NormalizeRomaji(romaji)))
  {
    ParseRomaji(NormalizeGlides(NormalizeRomaji(romaji)))
  }
}
