/**
 * The rewrite rules of cjkvo/vi.py as functions from slots to slots: the eight steps of
 * `normalize`, the eight inverse steps of `denormalize`, and the entry points
 * `parse_vietnamese` and `emit_vietnamese`. The `Syllable` class runs the same steps
 * in place.
 */
module VietnameseRules {
  import opened Results
  import opened Sequences
  import opened VietnameseText
  import opened VietnameseTone
  import opened VietnameseSegment

  // ----------------------------------------------------------------------------
  // Tables. Each dict of the source is a function from a key to `Some(value)`, or to
  // `None` when the key is absent.

  /** DIPTHONG_TELEX: the diphthong spellings and their Telex codes. */
  function DiphthongCode(d: string): Option<string> {
    if d == "iê" || d == "yê" || d == "ya" then Some("ia")
    else if d == "ưa" || d == "ươ" then Some("uwa")
    else if d == "uô" then Some("ua")
    else None
  }

  /** VOWEL_TELEX: the vowels with diacritics and their Telex codes. */
  function VowelCode(v: string): Option<string> {
    if v == "ă" then Some("aw")
    else if v == "â" then Some("aa")
    else if v == "ơ" then Some("ow")
    else if v == "ư" then Some("uw")
    else if v == "ê" then Some("ee")
    else if v == "ô" then Some("oo")
    else None
  }

  /** NUCLEUS_TELEX: `{'y': 'i'}` updated with DIPTHONG_TELEX, then with VOWEL_TELEX
    * (a later update wins). */
  function NucleusCode(n: string): Option<string> {
    if VowelCode(n).Some? then VowelCode(n)
    else if DiphthongCode(n).Some? then DiphthongCode(n)
    else if n == "y" then Some("i")
    else None
  }

  /** TELEX_VOWEL: VOWEL_TELEX inverted. */
  function CodeVowel(c: string): Option<string> {
    if c == "aw" then Some("ă")
    else if c == "aa" then Some("â")
    else if c == "ow" then Some("ơ")
    else if c == "uw" then Some("ư")
    else if c == "ee" then Some("ê")
    else if c == "oo" then Some("ô")
    else None
  }

  /** The `alternates` of norm_initial. */
  function InitialVariant(i: string): Option<string> {
    if i == "ngh" then Some("ng")
    else if i == "c" || i == "q" then Some("k")
    else if i == "gh" then Some("g")
    else if i == "đ" then Some("dd")
    else None
  }

  /** The `alternates` of norm_coda. */
  function CodaVariant(c: string): Option<string> {
    if c == "y" then Some("i")
    else if c == "o" then Some("u")
    else None
  }

  /** TELEX_VOWEL is VOWEL_TELEX read backwards: each table undoes the other. */
  lemma VowelCodesInverse(v: string, c: string)
    ensures VowelCode(v) == Some(c) <==> CodeVowel(c) == Some(v)
  {
  }

  /** The values of NUCLEUS_TELEX. */
  const TelexCodes: seq<string> := ["aw", "aa", "ow", "uw", "ee", "oo", "ia", "uwa", "ua", "i"]

  /** No Telex code of NUCLEUS_TELEX is itself rewritten by it, and every code is one of
    * TelexCodes. */
  lemma NucleusCodesAreFinal(n: string)
    ensures NucleusCode(n).Some? ==> NucleusCode(NucleusCode(n).value).None?
    ensures NucleusCode(n).Some? ==> NucleusCode(n).value in TelexCodes
  {
  }

  /** A dict lookup with a text as key, `found` being the lookup of its letters: the keys
    * carry no tone mark, so a text with one is never found. */
  function Found(key: Text, found: Option<string>): (v: Option<Text>)
    ensures v.Some? <==> Toneless(key) && found.Some?
    ensures v.Some? ==> v.value == Plain(found.value)
  {
    if Toneless(key) && found.Some? then Some(Plain(found.value))
    else None
  }

  /** `nucleus in NUCLEUS_TELEX`, `nucleus in TELEX_VOWEL`, `initial in alternates` and
    * `coda in alternates` on texts, each giving the value found. */
  function NucleusRespelled(t: Text): Option<Text> { Found(t, NucleusCode(Bases(t))) }
  function VowelRespelled(t: Text): Option<Text> { Found(t, CodeVowel(Bases(t))) }
  function InitialRespelled(t: Text): Option<Text> { Found(t, InitialVariant(Bases(t))) }
  function CodaRespelled(t: Text): Option<Text> { Found(t, CodaVariant(Bases(t))) }

  /** Python's `text[0] in letters` on a non-empty text: its first letter, bearing no
    * tone mark, is one of `letters`. */
  predicate StartsWithOneOf(t: Text, letters: string) {
    t != [] && t[0].tone.None? && t[0].base in letters
  }

  /** Python's `coda and coda in 'yu'`: a non-empty coda that is a substring of `yu`. */
  predicate OffglideYU(coda: Option<Text>) {
    Present(coda) && IsInfix(coda.value, Plain("yu"))
  }

  // ----------------------------------------------------------------------------
  // The steps of normalize.

  /** Whether the glide bears a tone mark. */
  predicate GlideToned(r: Slots) {
    Present(r.glide) && LastTone(r.glide.value).Some?
  }

  /** norm_tone: the tone mark moves from the nucleus into the tone slot; when the
    * nucleus carries none, a mark on the glide is taken instead (as in `hỏa`). A
    * syllable with no nucleus keeps its tone slot, and takes the glide's mark only when
    * that slot is empty. */
  function NormTone(r: Slots): (r': Slots)
    ensures r'.initial == r.initial && r'.coda == r.coda
    ensures Present(r.nucleus) ==> r'.nucleus == Some(Strip(r.nucleus.value))
    ensures !Present(r.nucleus) ==> r'.nucleus == r.nucleus
    ensures Present(r.nucleus) && LastTone(r.nucleus.value).Some? ==>
              r'.tone == LastTone(r.nucleus.value) && r'.glide == r.glide
    ensures Present(r.nucleus) && LastTone(r.nucleus.value).None? && GlideToned(r) ==>
              r'.tone == LastTone(r.glide.value) && r'.glide == Some(Strip(r.glide.value))
    ensures Present(r.nucleus) && LastTone(r.nucleus.value).None? && !GlideToned(r) ==>
              r'.tone.None? && r'.glide == r.glide
    ensures !Present(r.nucleus) && r.tone.None? && GlideToned(r) ==>
              r' == r.(tone := LastTone(r.glide.value), glide := Some(Strip(r.glide.value)))
    ensures !Present(r.nucleus) && !(r.tone.None? && GlideToned(r)) ==> r' == r
  {
    var r1 := if Present(r.nucleus) then r.(tone := LastTone(r.nucleus.value), nucleus := Some(Strip(r.nucleus.value)))
              else r;
    if r1.tone.None? && Present(r1.glide) && LastTone(r1.glide.value).Some?
    then r1.(tone := LastTone(r1.glide.value), glide := Some(Strip(r1.glide.value)))
    else r1
  }

  /** Whether the initial is a `gi` (possibly with a tone mark) with no nucleus after it:
    * the whole syllable /zi/. */
  predicate BareGi(r: Slots) {
    Present(r.initial) && r.nucleus.None? && Strip(r.initial.value) == Plain("gi")
  }

  /** duplicate_i: a bare `gi` gains the nucleus `i`, and its tone mark moves into the
    * tone slot; any other syllable is left alone. */
  function DuplicateI(r: Slots): (r': Slots)
    ensures BareGi(r) ==> r' == r.(initial := Some(Plain("gi")), nucleus := Some(Plain("i")),
                                   tone := LastTone(r.initial.value))
    ensures !BareGi(r) ==> r' == r
  {
    if Present(r.initial) && r.nucleus.None? && Strip(r.initial.value) == Plain("gi")
    then r.(nucleus := Some(Plain("i")), initial := Some(Plain("gi")), tone := LastTone(r.initial.value))
    else r
  }

  /** norm_q: the initial `qu` becomes `q` with the glide `w`; nothing else changes. */
  function NormQ(r: Slots): (r': Slots)
    ensures r'.initial != Some(Plain("qu"))
    ensures r.initial == Some(Plain("qu")) ==> r' == r.(initial := Some(Plain("q")), glide := Some(Plain("w")))
    ensures r.initial != Some(Plain("qu")) ==> r' == r
  {
    if r.initial == Some(Plain("qu")) then r.(initial := Some(Plain("q")), glide := Some(Plain("w"))) else r
  }

  /** add_short_a: the nucleus `a` is the short `ă` before the offglides `y` and `u`;
    * every other syllable is left alone. */
  function AddShortA(r: Slots): (r': Slots)
    ensures r.nucleus == Some(Plain("a")) && OffglideYU(r.coda) ==> r' == r.(nucleus := Some(Plain("ă")))
    ensures !(r.nucleus == Some(Plain("a")) && OffglideYU(r.coda)) ==> r' == r
    ensures !(r'.nucleus == Some(Plain("a")) && OffglideYU(r'.coda))
  {
    if r.nucleus == Some(Plain("a")) && OffglideYU(r.coda) then r.(nucleus := Some(Plain("ă"))) else r
  }

  /** norm_initial: the spelling variants `ngh`, `c`, `q`, `gh`, `đ` become `ng`, `k`, `k`,
    * `g`, `dd`, any other initial is kept, and no initial that comes out is one of those
    * variants. */
  function NormInitial(r: Slots): (r': Slots)
    ensures r.initial.Some? && InitialRespelled(r.initial.value).Some? ==>
              r' == r.(initial := InitialRespelled(r.initial.value))
    ensures r.initial.None? || InitialRespelled(r.initial.value).None? ==> r' == r
    ensures r'.initial.Some? ==> InitialRespelled(r'.initial.value).None?
    ensures Present(r.initial) <==> Present(r'.initial)
    ensures r.initial != Some(Plain("qu")) ==> r'.initial != Some(Plain("qu"))
  {
    if r.initial.Some? && InitialRespelled(r.initial.value).Some? then
      var code := InitialVariant(Bases(r.initial.value)).value;
      PlainSpells(code);
      PlainSpells("qu");
      r.(initial := Some(Plain(code)))
    else r
  }

  /** norm_glide: any glide becomes the marker `w`. */
  function NormGlide(r: Slots): (r': Slots)
    ensures r'.(glide := r.glide) == r
    ensures Present(r'.glide) <==> Present(r.glide)
    ensures Present(r'.glide) ==> r'.glide == Some(Plain("w"))
  {
    if Present(r.glide) then r.(glide := Some(Plain("w"))) else r
  }

  /** norm_nucleus: a nucleus that is a key of NUCLEUS_TELEX becomes its Telex code, any
    * other nucleus is kept, and the nucleus that comes out is never a key. */
  function NormNucleus(r: Slots): (r': Slots)
    ensures r.nucleus.Some? && NucleusRespelled(r.nucleus.value).Some? ==>
              r' == r.(nucleus := NucleusRespelled(r.nucleus.value))
    ensures r.nucleus.None? || NucleusRespelled(r.nucleus.value).None? ==> r' == r
    ensures r'.nucleus.Some? ==> NucleusRespelled(r'.nucleus.value).None?
    ensures Present(r.nucleus) <==> Present(r'.nucleus)
    ensures r'.nucleus != r.nucleus ==>
              exists code :: code in TelexCodes && r'.nucleus == Some(Plain(code))
  {
    if r.nucleus.Some? && NucleusRespelled(r.nucleus.value).Some? then
      var code := NucleusCode(Bases(r.nucleus.value)).value;
      NucleusCodesAreFinal(Bases(r.nucleus.value));
      PlainSpells(code);
      r.(nucleus := Some(Plain(code)))
    else r
  }

  /** norm_coda: the offglide spellings `y` and `o` become `i` and `u`, and any other
    * coda is kept. */
  function NormCoda(r: Slots): (r': Slots)
    ensures r.coda.Some? && CodaRespelled(r.coda.value).Some? ==>
              r' == r.(coda := CodaRespelled(r.coda.value))
    ensures r.coda.None? || CodaRespelled(r.coda.value).None? ==> r' == r
    ensures r'.coda != Some(Plain("y")) && r'.coda != Some(Plain("o"))
    ensures r'.coda.Some? ==> CodaRespelled(r'.coda.value).None?
    ensures Present(r.coda) <==> Present(r'.coda)
    ensures r'.coda != r.coda ==> r'.coda == Some(Plain("i")) || r'.coda == Some(Plain("u"))
  {
    if r.coda.Some? && CodaRespelled(r.coda.value).Some? then
      var code := CodaVariant(Bases(r.coda.value)).value;
      PlainSpells(code);
      r.(coda := Some(Plain(code)))
    else r
  }

  // ----------------------------------------------------------------------------
  // The steps of denormalize. Each is undone by the normalize step of the same slot.

  /** Whether denorm_coda spells the offglide `i` as `y`: after `ă` and `â`. */
  predicate CodaSpelledY(r: Slots) {
    r.coda == Some(Plain("i")) && r.nucleus in {Some(Plain("aw")), Some(Plain("aa"))}
  }

  /** Whether denorm_coda spells the offglide `u` as `o`: after `e` and `a`. */
  predicate CodaSpelledO(r: Slots) {
    r.coda == Some(Plain("u")) && r.nucleus in {Some(Plain("e")), Some(Plain("a"))}
  }

  /** denorm_coda: the offglide is spelled `y` after `ă` and `â`, `o` after `e` and `a`;
    * any other coda is kept. */
  function DenormCoda(r: Slots): (r': Slots)
    ensures CodaSpelledY(r) ==> r' == r.(coda := Some(Plain("y")))
    ensures CodaSpelledO(r) ==> r' == r.(coda := Some(Plain("o")))
    ensures !CodaSpelledY(r) && !CodaSpelledO(r) ==> r' == r
    ensures NormCoda(r') == NormCoda(r)
  {
    if CodaSpelledY(r) then
      PlainSpells("i");
      PlainSpells("y");
      assert Plain("i")[0] != Plain("u")[0];
      r.(coda := Some(Plain("y")))
    else if CodaSpelledO(r) then
      PlainSpells("u");
      PlainSpells("o");
      r.(coda := Some(Plain("o")))
    else r
  }

  /** The spelling denorm_nucleus gives the Telex nucleus `code`, knowing whether the
    * syllable has a glide, a coda and an initial; `None` when it keeps `code`. */
  function NucleusSpelling(code: string, glide: bool, coda: bool, initial: bool): Option<string> {
    if CodeVowel(code).Some? then CodeVowel(code)
    else if code == "ia" then
      (if (glide && coda) || !initial then Some("yê")
       else if glide then Some("ya")
       else if coda then Some("iê")
       else None)
    else if code == "uwa" then (if coda then Some("ươ") else Some("ưa"))
    else if code == "ua" && coda then Some("uô")
    else if code == "i" && (!(initial || coda) || glide) then Some("y")
    else None
  }

  /** The spellings NucleusSpelling gives the diphthong codes and `i`, read off its table. */
  lemma DiphthongSpellings(glide: bool, coda: bool, initial: bool)
    ensures Toneless(Plain("ia")) && Bases(Plain("ia")) == "ia"
    ensures Toneless(Plain("uwa")) && Bases(Plain("uwa")) == "uwa"
    ensures Toneless(Plain("ua")) && Bases(Plain("ua")) == "ua"
    ensures Toneless(Plain("i")) && Bases(Plain("i")) == "i"
    ensures NucleusSpelling("ia", glide, coda, initial) ==
              (if (glide && coda) || !initial then Some("yê") else if glide then Some("ya")
               else if coda then Some("iê") else None)
    ensures NucleusSpelling("uwa", glide, coda, initial) == Some(if coda then "ươ" else "ưa")
    ensures NucleusSpelling("ua", glide, coda, initial) == (if coda then Some("uô") else None)
    ensures NucleusSpelling("i", glide, coda, initial) == (if (!initial && !coda) || glide then Some("y") else None)
  {
    PlainSpells("ia");
    PlainSpells("uwa");
    PlainSpells("ua");
    PlainSpells("i");
  }

  /** No spelling NucleusSpelling chooses is empty. */
  lemma NucleusSpellingNonEmpty(code: string, glide: bool, coda: bool, initial: bool)
    ensures NucleusSpelling(code, glide, coda, initial).Some? ==> NucleusSpelling(code, glide, coda, initial).value != ""
  {
  }

  /** denorm_nucleus: Telex vowel codes become the vowels; the diphthong codes and `i`
    * take the spelling their neighbours call for: `ia` is `yê` with both glide and coda
    * or with no initial, else `ya` with a glide, else `iê` with a coda; `uwa` is `ươ`
    * with a coda and `ưa` without; `ua` is `uô` with a coda; `i` is `y` alone or after
    * a glide. Any other nucleus is kept. */
  function DenormNucleus(r: Slots): (r': Slots)
    ensures r'.(nucleus := r.nucleus) == r
    ensures Present(r'.nucleus) <==> Present(r.nucleus)
    ensures r'.nucleus != r.nucleus ==> r'.nucleus.Some? && Toneless(r'.nucleus.value)
    ensures r.nucleus.Some? && VowelRespelled(r.nucleus.value).Some? ==> r'.nucleus == VowelRespelled(r.nucleus.value)
    ensures var glide, coda, initial := Present(r.glide), Present(r.coda), Present(r.initial);
            && (r.nucleus == Some(Plain("ia")) && ((glide && coda) || !initial) ==> r'.nucleus == Some(Plain("yê")))
            && (r.nucleus == Some(Plain("ia")) && initial && glide && !coda ==> r'.nucleus == Some(Plain("ya")))
            && (r.nucleus == Some(Plain("ia")) && initial && !glide && coda ==> r'.nucleus == Some(Plain("iê")))
            && (r.nucleus == Some(Plain("uwa")) && coda ==> r'.nucleus == Some(Plain("ươ")))
            && (r.nucleus == Some(Plain("uwa")) && !coda ==> r'.nucleus == Some(Plain("ưa")))
            && (r.nucleus == Some(Plain("ua")) && coda ==> r'.nucleus == Some(Plain("uô")))
            && (r.nucleus == Some(Plain("i")) && ((!initial && !coda) || glide) ==> r'.nucleus == Some(Plain("y")))
    ensures (r.nucleus.None? || !Toneless(r.nucleus.value) ||
             NucleusSpelling(Bases(r.nucleus.value), Present(r.glide), Present(r.coda), Present(r.initial)).None?) ==>
              r' == r
  {
    if r.nucleus.None? || !Toneless(r.nucleus.value) then r
    else
      var sp := NucleusSpelling(Bases(r.nucleus.value), Present(r.glide), Present(r.coda), Present(r.initial));
      DiphthongSpellings(Present(r.glide), Present(r.coda), Present(r.initial));
      if sp.None? then r
      else
        assert sp.value != "" by { NucleusSpellingNonEmpty(Bases(r.nucleus.value), Present(r.glide), Present(r.coda), Present(r.initial)); }
        PlainSpells(sp.value);
        r.(nucleus := Some(Plain(sp.value)))
  }

  /** denorm_glide: the glide marker is spelled `o` before `a`, `ă`, `e` and `u` before
    * `y`, `ê`, `ơ`, `â`. A syllable with no nucleus is refused. */
  function DenormGlide(r: Slots): (r': Result<Slots, Error>)
    ensures r'.Err? <==> !Present(r.nucleus)
    ensures r'.Err? ==> r'.error == MissingNucleus
    ensures Present(r.nucleus) && Present(r.glide) && IsInfix(r.nucleus.value, Plain("aăe")) ==>
              r' == Ok(r.(glide := Some(Plain("o"))))
    ensures Present(r.nucleus) && Present(r.glide) && StartsWithOneOf(r.nucleus.value, "yêơâ") ==>
              r' == Ok(r.(glide := Some(Plain("u"))))
    ensures Present(r.nucleus) && !(Present(r.glide) && (IsInfix(r.nucleus.value, Plain("aăe")) ||
                                                         StartsWithOneOf(r.nucleus.value, "yêơâ"))) ==>
              r' == Ok(r)
    ensures r'.Ok? ==> NormGlide(r'.value) == NormGlide(r)
  {
    if !Present(r.nucleus) then Err(MissingNucleus)
    else
      var g1 := if Present(r.glide) && IsInfix(r.nucleus.value, Plain("aăe")) then Some(Plain("o")) else r.glide;
      var g2 := if Present(g1) && StartsWithOneOf(r.nucleus.value, "yêơâ") then Some(Plain("u")) else g1;
      assert IsInfix(r.nucleus.value, Plain("aăe")) ==> !StartsWithOneOf(r.nucleus.value, "yêơâ") by {
        if IsInfix(r.nucleus.value, Plain("aăe")) {
          InfixHead(r.nucleus.value, Plain("aăe"));
        }
      }
      Ok(r.(glide := g2))
  }

  /** The spelling denorm_initial gives the Telex initial `code`, knowing whether the
    * syllable has a glide and whether its nucleus starts with one of `ieê` (`frontVowel`)
    * or `yieê` (`frontVowelOrY`); `None` when it keeps `code`. */
  function InitialSpelling(code: string, glide: bool, frontVowel: bool, frontVowelOrY: bool): Option<string> {
    if code == "g" && frontVowel then Some("gh")
    else if code == "ng" && frontVowel then Some("ngh")
    else if code == "k" && glide then Some("q")
    else if code == "k" && !frontVowelOrY then Some("c")
    else if code == "dd" then Some("đ")
    else None
  }

  /** The spellings InitialSpelling gives the codes `g`, `ng`, `k` and `dd`, read off its
    * table. */
  lemma InitialCodeSpellings(glide: bool, frontVowel: bool, frontVowelOrY: bool)
    ensures Toneless(Plain("g")) && Bases(Plain("g")) == "g"
    ensures Toneless(Plain("ng")) && Bases(Plain("ng")) == "ng"
    ensures Toneless(Plain("k")) && Bases(Plain("k")) == "k"
    ensures Toneless(Plain("dd")) && Bases(Plain("dd")) == "dd"
    ensures InitialSpelling("g", glide, frontVowel, frontVowelOrY) == (if frontVowel then Some("gh") else None)
    ensures InitialSpelling("ng", glide, frontVowel, frontVowelOrY) == (if frontVowel then Some("ngh") else None)
    ensures InitialSpelling("k", glide, frontVowel, frontVowelOrY) ==
              (if glide then Some("q") else if !frontVowelOrY then Some("c") else None)
    ensures InitialSpelling("dd", glide, frontVowel, frontVowelOrY) == Some("đ")
  {
    PlainSpells("g");
    PlainSpells("ng");
    PlainSpells("k");
    PlainSpells("dd");
  }

  /** denorm_initial: `g` and `ng` are spelled `gh` and `ngh` before `i`, `e`, `ê`; `k` is
    * spelled `q` before a glide and `c` unless `y`, `i`, `e` or `ê` follows; `dd` is `đ`.
    * A syllable with no nucleus is refused. */
  function DenormInitial(r: Slots): (r': Result<Slots, Error>)
    ensures r'.Err? <==> !Present(r.nucleus)
    ensures r'.Err? ==> r'.error == MissingNucleus
    ensures r'.Ok? ==> r'.value.(initial := r.initial) == r
    ensures Present(r.nucleus) && StartsWithOneOf(r.nucleus.value, "ieê") && r.initial == Some(Plain("g")) ==>
              r' == Ok(r.(initial := Some(Plain("gh"))))
    ensures Present(r.nucleus) && StartsWithOneOf(r.nucleus.value, "ieê") && r.initial == Some(Plain("ng")) ==>
              r' == Ok(r.(initial := Some(Plain("ngh"))))
    ensures Present(r.nucleus) && r.initial == Some(Plain("k")) && Present(r.glide) ==>
              r' == Ok(r.(initial := Some(Plain("q"))))
    ensures Present(r.nucleus) && r.initial == Some(Plain("k")) && !Present(r.glide) &&
            !StartsWithOneOf(r.nucleus.value, "yieê") ==>
              r' == Ok(r.(initial := Some(Plain("c"))))
    ensures Present(r.nucleus) && r.initial == Some(Plain("dd")) ==> r' == Ok(r.(initial := Some(Plain("đ"))))
    ensures Present(r.nucleus) &&
            (r.initial.None? || !Toneless(r.initial.value) ||
             InitialSpelling(Bases(r.initial.value), Present(r.glide), StartsWithOneOf(r.nucleus.value, "ieê"),
                             StartsWithOneOf(r.nucleus.value, "yieê")).None?) ==>
              r' == Ok(r)
    ensures r'.Ok? && r'.value.initial != r.initial ==> r'.value.initial.Some? && Toneless(r'.value.initial.value)
    ensures r'.Ok? && r.initial != Some(Plain("qu")) ==> r'.value.initial != Some(Plain("qu"))
  {
    if !Present(r.nucleus) then Err(MissingNucleus)
    else if r.initial.None? || !Toneless(r.initial.value) then Ok(r)
    else
      var front, frontOrY := StartsWithOneOf(r.nucleus.value, "ieê"), StartsWithOneOf(r.nucleus.value, "yieê");
      var sp := InitialSpelling(Bases(r.initial.value), Present(r.glide), front, frontOrY);
      InitialCodeSpellings(Present(r.glide), front, frontOrY);
      if sp.None? then Ok(r)
      else
        PlainSpells(sp.value);
        PlainSpells("qu");
        Ok(r.(initial := Some(Plain(sp.value))))
  }

  /** NUCLEUS_TELEX applied to a spelling: its Telex code if it has one, else itself. */
  function TelexNucleus(n: string): string {
    if NucleusCode(n).Some? then NucleusCode(n).value else n
  }

  /** No Telex code of TELEX_VOWEL is a key of NUCLEUS_TELEX. */
  lemma VowelCodesAreNotKeys(c: string)
    ensures CodeVowel(c).Some? ==> NucleusCode(c).None?
  {
  }

  lemma SpellingOfVowelCode(code: string)
    requires CodeVowel(code).Some?
    ensures TelexNucleus(CodeVowel(code).value) == TelexNucleus(code)
  {
    VowelCodesInverse(CodeVowel(code).value, code);
    VowelCodesAreNotKeys(code);
  }

  lemma SpellingsOfIa(glide: bool, coda: bool, initial: bool)
    ensures NucleusSpelling("ia", glide, coda, initial).Some? ==>
              TelexNucleus(NucleusSpelling("ia", glide, coda, initial).value) == "ia"
  {
    assert TelexNucleus("yê") == TelexNucleus("ya") == TelexNucleus("iê") == "ia";
  }

  lemma SpellingsOfUwa(glide: bool, coda: bool, initial: bool)
    ensures NucleusSpelling("uwa", glide, coda, initial).Some? ==>
              TelexNucleus(NucleusSpelling("uwa", glide, coda, initial).value) == "uwa"
  {
    assert TelexNucleus("ươ") == TelexNucleus("ưa") == "uwa";
  }

  lemma SpellingsOfUa(glide: bool, coda: bool, initial: bool)
    ensures NucleusSpelling("ua", glide, coda, initial).Some? ==>
              TelexNucleus(NucleusSpelling("ua", glide, coda, initial).value) == "ua"
  {
    assert TelexNucleus("uô") == "ua";
  }

  lemma SpellingsOfI(glide: bool, coda: bool, initial: bool)
    ensures NucleusSpelling("i", glide, coda, initial).Some? ==>
              TelexNucleus(NucleusSpelling("i", glide, coda, initial).value) == "i"
  {
    assert TelexNucleus("y") == "i";
  }

  /** Every spelling denorm_nucleus chooses for a code is read back by NUCLEUS_TELEX as
    * what the code itself is read as. */
  lemma TelexNucleusUndoesSpelling(code: string, glide: bool, coda: bool, initial: bool)
    ensures NucleusSpelling(code, glide, coda, initial).Some? ==>
              TelexNucleus(NucleusSpelling(code, glide, coda, initial).value) == TelexNucleus(code)
  {
    if CodeVowel(code).Some? {
      SpellingOfVowelCode(code);
    } else if code == "ia" {
      SpellingsOfIa(glide, coda, initial);
    } else if code == "uwa" {
      SpellingsOfUwa(glide, coda, initial);
    } else if code == "ua" {
      SpellingsOfUa(glide, coda, initial);
    } else if code == "i" {
      SpellingsOfI(glide, coda, initial);
    }
  }

  /** norm_nucleus undoes denorm_nucleus. */
  lemma NormNucleusUndoesDenorm(r: Slots)
    ensures NormNucleus(DenormNucleus(r)) == NormNucleus(r)
  {
    if r.nucleus.Some? && Toneless(r.nucleus.value) {
      var n := r.nucleus.value;
      var sp := NucleusSpelling(Bases(n), Present(r.glide), Present(r.coda), Present(r.initial));
      TelexNucleusUndoesSpelling(Bases(n), Present(r.glide), Present(r.coda), Present(r.initial));
      if sp.Some? {
        PlainSpells(sp.value);
        TonelessIsPlain(n);
      }
    }
  }

  /** The `alternates` of norm_initial applied to a spelling. */
  function TelexInitial(i: string): string {
    if InitialVariant(i).Some? then InitialVariant(i).value else i
  }

  /** Every spelling denorm_initial chooses for a code is read back by norm_initial as
    * what the code itself is read as. */
  lemma TelexInitialUndoesSpelling(code: string, glide: bool, frontVowel: bool, frontVowelOrY: bool)
    ensures InitialSpelling(code, glide, frontVowel, frontVowelOrY).Some? ==>
              TelexInitial(InitialSpelling(code, glide, frontVowel, frontVowelOrY).value) == TelexInitial(code)
  {
    assert TelexInitial("gh") == TelexInitial("g");
    assert TelexInitial("ngh") == TelexInitial("ng");
    assert TelexInitial("q") == TelexInitial("c") == TelexInitial("k");
    assert TelexInitial("đ") == TelexInitial("dd");
  }

  /** norm_initial undoes denorm_initial. */
  lemma NormInitialUndoesDenorm(r: Slots)
    requires Present(r.nucleus)
    ensures NormInitial(DenormInitial(r).value) == NormInitial(r)
  {
    if Present(r.initial) && Toneless(r.initial.value) {
      var i := r.initial.value;
      var sp := InitialSpelling(Bases(i), Present(r.glide), StartsWithOneOf(r.nucleus.value, "ieê"),
                                StartsWithOneOf(r.nucleus.value, "yieê"));
      TelexInitialUndoesSpelling(Bases(i), Present(r.glide), StartsWithOneOf(r.nucleus.value, "ieê"),
                                 StartsWithOneOf(r.nucleus.value, "yieê"));
      if sp.Some? {
        PlainSpells(sp.value);
        TonelessIsPlain(i);
      }
    }
  }

  /** remove_short_a: `ă` before the offglides `y` and `u` is written `a`; every other
    * syllable is left alone. */
  function RemoveShortA(r: Slots): (r': Slots)
    ensures r.nucleus == Some(Plain("ă")) && OffglideYU(r.coda) ==> r' == r.(nucleus := Some(Plain("a")))
    ensures !(r.nucleus == Some(Plain("ă")) && OffglideYU(r.coda)) ==> r' == r
    ensures AddShortA(r') == AddShortA(r)
  {
    if r.nucleus == Some(Plain("ă")) && OffglideYU(r.coda) then r.(nucleus := Some(Plain("a"))) else r
  }

  /** denorm_q: `q` with a glide is written `qu`, which takes the glide's place. */
  function DenormQ(r: Slots): (r': Slots)
    ensures r.initial == Some(Plain("q")) && Present(r.glide) ==> r' == r.(initial := Some(Plain("qu")), glide := None)
    ensures !(r.initial == Some(Plain("q")) && Present(r.glide)) ==> r' == r
    ensures NormGlide(NormQ(r')) == NormGlide(NormQ(r))
  {
    if r.initial == Some(Plain("q")) && Present(r.glide) then r.(initial := Some(Plain("qu")), glide := None) else r
  }

  /** deduplicate_i: the syllable `gi` + `i` is written `gi` alone, bearing the tone
    * mark on its last letter. */
  function DeduplicateI(r: Slots): (r': Slots)
    ensures r.initial == Some(Plain("gi")) && r.nucleus == Some(Plain("i")) ==>
              r' == r.(initial := Some(AddTone(r.tone, Plain("gi"), false)), nucleus := None, tone := None)
    ensures !(r.initial == Some(Plain("gi")) && r.nucleus == Some(Plain("i"))) ==> r' == r
    ensures DuplicateI(r') == DuplicateI(r)
  {
    if r.initial == Some(Plain("gi")) && r.nucleus == Some(Plain("i")) then
      DuplicateAfterDeduplicate(r.tone);
      r.(initial := Some(AddTone(r.tone, Plain("gi"), false)), nucleus := None, tone := None)
    else r
  }

  /** The tone and the spelling of `gi` survive putting the tone mark on it. */
  lemma DuplicateAfterDeduplicate(tone: Option<Tone>)
    ensures Strip(AddTone(tone, Plain("gi"), false)) == Plain("gi")
    ensures LastTone(AddTone(tone, Plain("gi"), false)) == tone
  {
    if tone.Some? {
      ExtractAfterAddTone(tone.value, Plain("gi"), false);
    } else {
      StripFixesToneless(Plain("gi"));
    }
  }

  /** denorm_tone: the tone mark goes on the nucleus, on its first letter when there is
    * no coda and on its last letter otherwise, and the tone slot is emptied. */
  function DenormTone(r: Slots): (r': Slots)
    ensures r'.(nucleus := r.nucleus, tone := r.tone) == r
    ensures Present(r.nucleus) ==> r'.tone.None? && Present(r'.nucleus)
    ensures Present(r.nucleus) && r.tone.Some? ==>
              r'.nucleus == Some(AddTone(r.tone, r.nucleus.value, !Present(r.coda)))
    ensures !(Present(r.nucleus) && r.tone.Some?) ==> r' == r
  {
    if Present(r.nucleus) && r.tone.Some?
    then r.(nucleus := Some(AddTone(r.tone, r.nucleus.value, !Present(r.coda))), tone := None)
    else r
  }

  /** norm_tone undoes denorm_tone on a syllable whose nucleus and glide bear no tone
    * mark (a syllable with no nucleus having no tone either). */
  lemma NormToneUndoesDenorm(r: Slots)
    requires r.nucleus.Some? ==> Toneless(r.nucleus.value)
    requires r.glide.Some? ==> Toneless(r.glide.value)
    requires !Present(r.nucleus) ==> r.tone.None?
    ensures NormTone(DenormTone(r)) == r
  {
    if Present(r.nucleus) {
      var n := r.nucleus.value;
      StripFixesToneless(n);
      if r.tone.Some? {
        ExtractAfterAddTone(r.tone.value, n, !Present(r.coda));
      } else {
        assert LastTone(n).None?;
      }
    } else if r.glide.Some? {
      assert LastTone(r.glide.value).None?;
    }
  }

  // ----------------------------------------------------------------------------
  // normalize, denormalize and the entry points.

  /** normalize: the steps in the order the source runs them. A syllable with neither a
    * nucleus nor a bare `gi` to supply one is refused. */
  function Normalize(r: Slots): (n: Result<Slots, Error>)
    ensures n.Err? <==> !Present(r.nucleus) && !BareGi(r)
    ensures n.Err? ==> n.error == MissingNucleus
  {
    var r1 := DuplicateI(NormTone(r));
    if !Present(r1.nucleus) then Err(MissingNucleus)
    else Ok(NormCoda(NormNucleus(NormGlide(NormInitial(AddShortA(NormQ(r1)))))))
  }

  /** denormalize: the inverse steps in the order the source runs them. A syllable with no
    * nucleus is refused; the tone slot always comes out empty. */
  function Denormalize(r: Slots): (d: Result<Slots, Error>)
    ensures d.Err? <==> !Present(r.nucleus)
    ensures d.Err? ==> d.error == MissingNucleus
    ensures d.Ok? ==> d.value.tone.None?
  {
    var g := DenormGlide(DenormNucleus(DenormCoda(r)));
    if g.Err? then Err(g.error)
    else
      var i := DenormInitial(g.value).value;
      Ok(DenormTone(DeduplicateI(DenormQ(RemoveShortA(i)))))
  }

  /** The slots normalize produces: a tone-free nucleus that no table rewrites, the glide
    * marker `w`, an initial and a coda that are no spelling variant, no `qu`, and no
    * plain `a` before the offglides other than the `u` that norm_coda makes of `o`. */
  predicate Normal(r: Slots) {
    && Present(r.nucleus) && Toneless(r.nucleus.value) && NucleusRespelled(r.nucleus.value).None?
    && (Present(r.glide) ==> r.glide == Some(Plain("w")))
    && (r.initial.Some? ==> InitialRespelled(r.initial.value).None?)
    && r.initial != Some(Plain("qu"))
    && (r.coda.Some? ==> CodaRespelled(r.coda.value).None?)
    && (r.nucleus == Some(Plain("a")) && OffglideYU(r.coda) ==> r.coda == Some(Plain("u")))
  }

  /** The codas `i` and `o` are not offglides in the sense of add_short_a. */
  lemma NotOffglides()
    ensures !OffglideYU(Some(Plain("i"))) && !OffglideYU(Some(Plain("o")))
  {
    assert Plain("yu")[1..] == Plain("u");
    assert Plain("u")[1..] == [];
  }

  /** norm_nucleus never produces a plain `a`. */
  lemma NormNucleusKeepsA(x: Slots)
    ensures NormNucleus(x).nucleus == Some(Plain("a")) ==> x.nucleus == Some(Plain("a"))
  {
    var b := NormNucleus(x);
    if b.nucleus != x.nucleus {
      var code :| code in TelexCodes && b.nucleus == Some(Plain(code));
      PlainSpells(code);
      PlainSpells("a");
    }
  }

  /** norm_coda makes no offglide other than `u`. */
  lemma NormCodaOffglides(x: Slots)
    ensures OffglideYU(NormCoda(x).coda) ==> NormCoda(x).coda == x.coda || NormCoda(x).coda == Some(Plain("u"))
  {
    NotOffglides();
  }

  /** The last four steps of normalize keep a plain `a` away from the offglides, apart
    * from the `u` norm_coda makes of `o`. */
  lemma ShortARuleSurvives(a: Slots)
    requires !(a.nucleus == Some(Plain("a")) && OffglideYU(a.coda))
    ensures var c := NormCoda(NormNucleus(NormGlide(NormInitial(a))));
            c.nucleus == Some(Plain("a")) && OffglideYU(c.coda) ==> c.coda == Some(Plain("u"))
  {
    var b := NormNucleus(NormGlide(NormInitial(a)));
    NormNucleusKeepsA(NormGlide(NormInitial(a)));
    NormCodaOffglides(b);
  }

  /** The last four steps of normalize give normal slots from a tone-free nucleus. */
  lemma NormalTail(a: Slots)
    requires Present(a.nucleus) && Toneless(a.nucleus.value)
    requires a.initial != Some(Plain("qu"))
    requires !(a.nucleus == Some(Plain("a")) && OffglideYU(a.coda))
    ensures Normal(NormCoda(NormNucleus(NormGlide(NormInitial(a)))))
  {
    ShortARuleSurvives(a);
  }

  /** Whatever normalize accepts comes out normal. */
  lemma NormalizeIsNormal(r: Slots)
    requires Normalize(r).Ok?
    ensures Normal(Normalize(r).value)
  {
    var r1 := DuplicateI(NormTone(r));
    assert Toneless(r1.nucleus.value) by { PlainSpells("i"); }
    var a := AddShortA(NormQ(r1));
    assert Toneless(a.nucleus.value) by { PlainSpells("ă"); }
    NormalTail(a);
  }

  /** norm_glide commutes with add_short_a and norm_initial, which read other slots. */
  lemma NormGlideCommutes(y: Slots)
    ensures NormGlide(NormInitial(AddShortA(y))) == NormInitial(AddShortA(NormGlide(y)))
  {
  }

  /** The first four steps of denormalize, undone by the last four of normalize. */
  lemma InnerStepsUndone(r: Slots)
    requires Normal(r)
    ensures var x3 := DenormGlide(DenormNucleus(DenormCoda(r))).value;
            NormCoda(NormNucleus(NormGlide(NormInitial(DenormInitial(x3).value)))) == r
  {
    var x1 := DenormCoda(r);
    var x2 := DenormNucleus(x1);
    var x3 := DenormGlide(x2).value;
    NormInitialUndoesDenorm(x3);
    assert NormInitial(x3) == x3;
    assert NormGlide(x2) == x2 by { PlainSpells("w"); }
    NormNucleusUndoesDenorm(x1);
  }

  /** What the first four steps of denormalize leave for the last four: tone-free
    * nucleus and glide, and no `qu`. */
  lemma InnerStepsShape(r: Slots)
    requires Normal(r)
    ensures var x4 := DenormInitial(DenormGlide(DenormNucleus(DenormCoda(r))).value).value;
            && Present(x4.nucleus) && Toneless(x4.nucleus.value)
            && (x4.glide.Some? ==> Toneless(x4.glide.value))
            && x4.initial != Some(Plain("qu"))
  {
    PlainSpells("o");
    PlainSpells("u");
    PlainSpells("w");
  }

  /** denorm_nucleus never produces a plain `a`. */
  lemma DenormNucleusKeepsA(x: Slots)
    ensures DenormNucleus(x).nucleus == Some(Plain("a")) ==> x.nucleus == Some(Plain("a"))
  {
    var n := x.nucleus;
    if DenormNucleus(x).nucleus != n {
      var sp := NucleusSpelling(Bases(n.value), Present(x.glide), Present(x.coda), Present(x.initial)).value;
      assert sp != "a";
      PlainSpells(sp);
      PlainSpells("a");
    }
  }

  /** denorm_coda moves the offglide `u` after a plain `a` to `o`. */
  lemma DenormCodaShortA(r: Slots)
    requires r.nucleus == Some(Plain("a")) && OffglideYU(r.coda) ==> r.coda == Some(Plain("u"))
    ensures !(DenormCoda(r).nucleus == Some(Plain("a")) && OffglideYU(DenormCoda(r).coda))
  {
    NotOffglides();
  }

  /** The first four steps of denormalize leave no plain `a` before an offglide. */
  lemma InnerStepsShortA(r: Slots)
    requires Normal(r)
    ensures var x4 := DenormInitial(DenormGlide(DenormNucleus(DenormCoda(r))).value).value;
            !(x4.nucleus == Some(Plain("a")) && OffglideYU(x4.coda))
  {
    DenormCodaShortA(r);
    DenormNucleusKeepsA(DenormCoda(r));
  }

  /** The last four steps of denormalize, undone by the first four of normalize. */
  lemma OuterStepsUndone(x4: Slots)
    requires Present(x4.nucleus) && Toneless(x4.nucleus.value)
    requires x4.glide.Some? ==> Toneless(x4.glide.value)
    requires x4.initial != Some(Plain("qu"))
    requires !(x4.nucleus == Some(Plain("a")) && OffglideYU(x4.coda))
    ensures Normalize(DenormTone(DeduplicateI(DenormQ(RemoveShortA(x4))))) ==
              Ok(NormCoda(NormNucleus(NormGlide(NormInitial(x4)))))
  {
    var x5 := RemoveShortA(x4);
    var x6 := DenormQ(x5);
    var x7 := DeduplicateI(x6);
    NormToneUndoesDenorm(x7);
    assert DuplicateI(NormTone(DenormTone(x7))) == x6;
    NormGlideCommutes(NormQ(x6));
    NormGlideCommutes(x5);
  }

  /** normalize undoes denormalize: emitting normal slots and reading the result back
    * gives the same slots. */
  lemma NormalizeUndoesDenormalize(r: Slots)
    requires Normal(r)
    ensures Denormalize(r).Ok? && Normalize(Denormalize(r).value) == Ok(r)
  {
    var x4 := DenormInitial(DenormGlide(DenormNucleus(DenormCoda(r))).value).value;
    InnerStepsUndone(r);
    InnerStepsShape(r);
    InnerStepsShortA(r);
    OuterStepsUndone(x4);
    assert Denormalize(r) == Ok(DenormTone(DeduplicateI(DenormQ(RemoveShortA(x4)))));
  }

  /** parse_vietnamese on lower-case input: segment, then normalize. What it returns is
    * normal. */
  function ParseVietnamese(s: Text): (r: Result<Slots, Error>)
    ensures Covered(s).None? ==> r == Err(SegmentationError)
    ensures Covered(s).Some? ==> r == Normalize(Segment(s).value)
    ensures r.Ok? ==> Normal(r.value)
  {
    var syl := Segment(s);
    if syl.Err? then Err(syl.error)
    else
      var n := Normalize(syl.value);
      if n.Ok? then NormalizeIsNormal(syl.value); n else n
  }

  /** The tone slot as the letters `''.join` writes for it. */
  function ToneText(t: Option<Tone>): Text {
    if t.Some? then [Letter(Tag(t.value), None)] else []
  }

  /** emit_vietnamese: denormalize, then join the five slots. The tone slot is always
    * empty by then, so the text is the spelling of the four others. */
  function EmitVietnamese(r: Slots): (e: Result<Text, Error>)
    ensures e.Err? <==> !Present(r.nucleus)
    ensures e.Err? ==> e.error == MissingNucleus
    ensures e.Ok? ==> e.value == Spelling(Denormalize(r).value)
  {
    var d := Denormalize(r);
    if d.Err? then Err(d.error) else Ok(Spelling(d.value) + ToneText(d.value.tone))
  }

  /** Reading back what parse_vietnamese produced, after emitting it, normalizes to the
    * same slots. */
  lemma ParseEmitNormalizes(s: Text)
    requires ParseVietnamese(s).Ok?
    ensures var r := ParseVietnamese(s).value;
            Denormalize(r).Ok? && Normalize(Denormalize(r).value) == Ok(r)
  {
    NormalizeUndoesDenormalize(ParseVietnamese(s).value);
  }
}
