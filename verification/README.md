# cjkvo syllable decomposers in Dafny

This project models the two syllable decomposers of cjkvo and proves properties of them.

**Vietnamese engine (`cjkvo/vi.py`).** It converts between the spelling of a quốc ngữ syllable and a five-slot record `(initial, glide, nucleus, coda, tone)`.
- **Reading a syllable:**
  - `segment` cuts the syllable into initial, rime and coda. It then applies the `uy` rule, the offglide rule and the glide-digraph rule.
  - `normalize` rewrites the slots into canonical Telex-like codes, in eight guarded steps on a `Syllable` object.
- **Writing a syllable:** `denormalize` chooses the conventional spelling back, in eight inverse steps. `emit_vietnamese` then joins the slots.

**Japanese helpers (`cjkvo/ja.py`).** These are:
- the small-kana enlarger;
- the two romaji rewriters;
- the romaji syllable parser `initial? medial? nucleus final?`;
- `parse_japanese`, composed from the rewriters and the parser.

The modules are:

- **`VietnameseText`** (vi_text.dfy): letters, texts and the slot record. A letter is its base letter together with at most one tone mark. The base letter keeps the vowel-quality diacritics of ă, â, ê, ô, ơ, ư and đ. This is the view that canonical decomposition gives the engine, so no composition tables are needed.
- **`VietnameseTone`** (vi_tone.dfy): the tone-mark tables, `extract_tone` (a method with a loop, as in the source) and `add_tone`.
- **`VietnameseSegment`** (vi_segment.dfy): `segment`. The pattern `^(initial)?(.*?)(coda)?$` is replaced by what it computes:
  - the initial is the first listed cluster that begins the syllable;
  - the coda is the longest listed coda that ends the rest;
  - the pattern fails only on line breaks that `.` cannot cover. Python's `$` also matches before one final line break.
- **`VietnameseRules`** (vi_rules.dfy):
  - the vowel and consonant tables;
  - every `norm_*`/`denorm_*` step, `duplicate_i`/`deduplicate_i` and `add_short_a`/`remove_short_a`, each as a function from slots to slots;
  - `normalize`, `denormalize`, `parse_vietnamese` and `emit_vietnamese`;
  - the proofs that normalize produces normal slots and that it undoes denormalize.
- **`VietnameseSyllable`** (vi_syllable.dfy): the `Syllable` class with its five mutable fields.
  - Each step is a method that updates the fields in place. Its postcondition says the new fields are what the step's function in `VietnameseRules` computes from the old ones.
  - A step that raises `ValueError` in the source returns the error in `raised` instead.
- **`VietnameseCases`** (vi_cases.dfy): every syllable of cjkvo/test_vi.py, proved as a lemma. Each lemma shows that parse_vietnamese gives the expected record and that emit_vietnamese writes the syllable back, or the expected spelling for the three old-style syllables.
- **`Japanese`** (ja.dfy): all of cjkvo/ja.py except the romanization library.
- **`Results`** and **`Sequences`**: `Option`, `Result`, prefix and substring tests.

The source raises `ValueError` at five sites (cjkvo/vi.py:107, 155, 204, 269 and cjkvo/ja.py:36), which make three kinds of error. The model returns them as errors:
- `SegmentationError` when the pattern does not match;
- `MissingNucleus` when a syllable has no nucleus;
- `UnableToParse` for romaji outside the grammar.

## Model

| member | source | states |
|---|---|---|
| VietnameseText.Tag | cjkvo/vi.py:6-12 | every tone is stored as one of the tags s, f, r, x, j |
| VietnameseTone.ToneOfMark | cjkvo/vi.py:6-12 | UNICODE_TONE gives a tone exactly for the five combining marks (acute, grave, hook above, tilde, dot below) |
| VietnameseTone.MarkOf | cjkvo/vi.py:14 | TONE_UNICODE gives for each tone the combining mark that UNICODE_TONE reads back as that tone |
| VietnameseTone.MarkTablesInverse | cjkvo/vi.py:6-14 | TONE_UNICODE and UNICODE_TONE are exact inverses in both directions |
| VietnameseTone.LastTone | cjkvo/vi.py:55-67 | the tone extract_tone reports is None exactly when no letter bears a mark; otherwise it is the mark of a letter with no marked letter after it (the last mark wins) |
| VietnameseTone.Strip | cjkvo/vi.py:55-67 | the rest extract_tone returns has the same length and base letters as the input and bears no tone mark |
| VietnameseTone.StripFixesToneless | cjkvo/vi.py:55-67 | extract_tone leaves the letters unchanged exactly when they bear no tone mark |
| VietnameseTone.ExtractTone | cjkvo/vi.py:55-67 | the loop returns the last tone seen and the letters without marks (LastTone and Strip) |
| VietnameseTone.AddTone | cjkvo/vi.py:70-77 | with no tone the text comes back unchanged; with a tone, the mark is on the first letter when at_beginning, else on the last, and every other letter is kept |
| VietnameseTone.LastToneOfSingleMark | cjkvo/vi.py:55-67 | a text with one tone mark reports that mark's tone |
| VietnameseTone.ExtractAfterAddTone | cjkvo/vi.py:55-77 | extract_tone(add_tone(t, r, b)) == (t, r) for a non-empty, tone-free r |
| VietnameseTone.AddToneAfterExtract | cjkvo/vi.py:55-77 | add_tone undoes extract_tone on a text whose single mark is on its first or last letter |
| VietnameseSyllable.Syllable.constructor | cjkvo/vi.py:43-49 | the five fields hold the five arguments |
| VietnameseSyllable.Syllable.Tuple | cjkvo/vi.py:51-52 | the tuple holds the five fields in order |
| VietnameseSegment.LineBreakFree | cjkvo/vi.py:104-105 | true exactly when no letter is a line break, which is what `.` can cover |
| VietnameseSegment.Covered | cjkvo/vi.py:104-107 | what the pattern covers is a line-free prefix of the input lacking at most its last letter; a line-free input is covered whole |
| VietnameseSegment.FirstPrefixFrom | cjkvo/vi.py:102-105 | the index found is the first alternative, in listed order, that begins the text |
| VietnameseSegment.MatchInitial | cjkvo/vi.py:102-105 | the initial group, when present, begins the syllable |
| VietnameseSegment.CodaStart | cjkvo/vi.py:103-105 | the coda group starts at the first position whose suffix is a listed coda, and no earlier suffix is one |
| VietnameseSegment.ExtractSemivowel | cjkvo/vi.py:80-84 | the offglide split off, put back after the rest, gives the input; the rest is empty only when the input is |
| VietnameseSegment.ExtractGlide | cjkvo/vi.py:87-92 | the glide split off, followed by the rest, gives the input; the rest is empty only when the input is |
| VietnameseSegment.SplitRime | cjkvo/vi.py:109-117 | the rime rules keep the initial, leave the tone empty, and lose or reorder no letter of rime and coda |
| VietnameseSegment.SplitRimeSpelling | cjkvo/vi.py:99-118 | the four slots concatenate back to initial, rime and coda |
| VietnameseSegment.SplitRimeSlots | cjkvo/vi.py:109-118 | an empty rime gives no glide and no nucleus; any other rime gives a non-empty nucleus; a glide is always the rime's first letter |
| VietnameseSegment.SplitRimeUy | cjkvo/vi.py:111-113 | a rime whose tone-free form starts with `uy` yields its `u` as glide |
| VietnameseSegment.SplitRimeOffglide | cjkvo/vi.py:114-115 | a consonant coda is kept. Otherwise an offglide `i/o/u/y` becomes the coda exactly when it ends a rime of more than one letter (after the `uy` glide) |
| VietnameseSegment.GlideRimeShape | cjkvo/vi.py:87-92 | a glide digraph has two letters, and its second is an offglide only in `uy` |
| VietnameseSegment.GlideDigraphSplit | cjkvo/vi.py:87-92 | a tone-free rime `oa, oă, oe, uy, uê, uơ, uâ` becomes glide = first letter and nucleus = second letter |
| VietnameseSegment.MatchGroups | cjkvo/vi.py:104-108 | the three groups concatenate to the covered text, and the first is the first-listed initial |
| VietnameseSegment.Segment | cjkvo/vi.py:99-118 | fails (SegmentationError) exactly when the pattern cannot cover the input. Otherwise the tone is None and the slots spell the covered input back: segment is nondestructive |
| VietnameseSegment.SegmentInitialFirstListed | cjkvo/vi.py:102-105 | the initial is the first listed cluster that is a prefix; there is none only when no listed cluster is a prefix |
| VietnameseSegment.CodaStartLongest | cjkvo/vi.py:103-105 | when some listed coda ends the text, the coda group is the longest such |
| VietnameseSegment.SplitRimeCodaLongest | cjkvo/vi.py:103-117 | after the rime rules the coda is the longest listed coda, or, when none fits, empty or an offglide letter |
| VietnameseSegment.SegmentCodaLongest | cjkvo/vi.py:99-118 | segment's coda is the longest listed coda ending what follows the initial; when none fits, it is empty or an offglide letter |
| VietnameseRules.VowelCodesInverse | cjkvo/vi.py:25-38 | TELEX_VOWEL[VOWEL_TELEX[v]] == v and back, for every vowel and code |
| VietnameseRules.NucleusCodesAreFinal | cjkvo/vi.py:16-36 | every value of NUCLEUS_TELEX is one of the ten Telex codes, and no value is itself a key |
| VietnameseRules.Found | cjkvo/vi.py:171-172 | a dict lookup with a text key: found only for a tone-free key spelling a listed key, giving the listed value |
| VietnameseRules.NormTone | cjkvo/vi.py:121-131 | initial and coda are kept. A present nucleus loses its marks, and its last mark becomes the tone, the glide then being kept. When the nucleus bears no mark, a mark on the glide becomes the tone and leaves the glide (as in `hỏa`); with no mark on either, the tone is None and the glide kept. With no nucleus, a marked glide gives its mark to an empty tone slot; otherwise nothing changes |
| VietnameseRules.DuplicateI | cjkvo/vi.py:227-233 | a bare `gi` (possibly toned) with no nucleus becomes initial `gi`, nucleus `i`, with the initial's tone in the tone slot; anything else is unchanged |
| VietnameseRules.NormQ | cjkvo/vi.py:252-255 | `qu` becomes `q` with glide `w`; nothing else changes; `qu` never remains |
| VietnameseRules.AddShortA | cjkvo/vi.py:242-244 | only the nucleus may change, and only from `a` to `ă`; no `a` is left before the offglides `y`/`u` |
| VietnameseRules.NormInitial | cjkvo/vi.py:141-150 | a listed alternate (ngh, c, q, gh, đ) becomes its code (ng, k, k, g, dd) and anything else is kept; only the initial changes; the result is never an alternate, keeps its presence, and is never `qu` unless it was |
| VietnameseRules.NormGlide | cjkvo/vi.py:197-199 | only the glide changes; a present glide becomes `w` |
| VietnameseRules.NormNucleus | cjkvo/vi.py:170-172 | a nucleus listed in NUCLEUS_TELEX becomes its code and any other is kept; only the nucleus changes, only to a Telex code, never to a key of the table; presence is kept |
| VietnameseRules.NormCoda | cjkvo/vi.py:211-217 | the coda `y` becomes `i` and `o` becomes `u`; any other coda is kept; it is never `y` or `o` afterwards; presence is kept |
| VietnameseRules.DenormCoda | cjkvo/vi.py:220-224 | the coda `i` becomes `y` after `aw` and `aa`, the coda `u` becomes `o` after `e` and `a`, anything else is kept; norm_coda reads the new coda as it reads the old |
| VietnameseRules.DenormNucleus | cjkvo/vi.py:175-195 | a vowel code becomes its vowel; `ia` becomes `yê`, `ya` or `iê`, `uwa` becomes `ươ` or `ưa`, `ua` becomes `uô`, and `i` becomes `y`, each under the source's conditions on glide, coda and initial; anything else is kept; only the nucleus changes, to a tone-free spelling, and its presence is kept |
| VietnameseRules.DenormGlide | cjkvo/vi.py:202-208 | fails (MissingNucleus) exactly when the nucleus is absent or empty. Otherwise a glide becomes `o` before a nucleus within `aăe`, `u` before one starting with `y`, `ê`, `ơ` or `â`, and is kept otherwise; norm_glide reads it as before |
| VietnameseRules.DenormInitial | cjkvo/vi.py:153-167 | fails (MissingNucleus) exactly when the nucleus is absent or empty. Otherwise `g` and `ng` become `gh` and `ngh` before i, e, ê; `k` becomes `q` before a glide and `c` before anything but y, i, e, ê; `dd` becomes `đ`; anything else is kept; only the initial changes, to a tone-free spelling, and never to `qu` |
| VietnameseRules.VowelCodesAreNotKeys | cjkvo/vi.py:25-38 | no Telex vowel code is a key of NUCLEUS_TELEX |
| VietnameseRules.SpellingOfVowelCode | cjkvo/vi.py:25-38 | NUCLEUS_TELEX reads the vowel spelled for a code back as that code |
| VietnameseRules.SpellingsOfIa | cjkvo/vi.py:178-183 | each of `yê`, `ya`, `iê` chosen for `ia` is read back as `ia` |
| VietnameseRules.SpellingsOfUwa | cjkvo/vi.py:184-187 | each of `ươ`, `ưa` chosen for `uwa` is read back as `uwa` |
| VietnameseRules.SpellingsOfUa | cjkvo/vi.py:188-189 | `uô` chosen for `ua` is read back as `ua` |
| VietnameseRules.SpellingsOfI | cjkvo/vi.py:194-195 | `y` chosen for `i` is read back as `i` |
| VietnameseRules.TelexNucleusUndoesSpelling | cjkvo/vi.py:175-195 | every spelling denorm_nucleus chooses is read by NUCLEUS_TELEX as the code it came from is |
| VietnameseRules.NormNucleusUndoesDenorm | cjkvo/vi.py:170-195 | norm_nucleus(denorm_nucleus(s)) == norm_nucleus(s) for all slots |
| VietnameseRules.TelexInitialUndoesSpelling | cjkvo/vi.py:141-167 | every spelling denorm_initial chooses (gh, ngh, q, c, đ) is read by the alternates as the code it came from is |
| VietnameseRules.NormInitialUndoesDenorm | cjkvo/vi.py:141-167 | norm_initial(denorm_initial(s)) == norm_initial(s) whenever denorm_initial succeeds |
| VietnameseRules.RemoveShortA | cjkvo/vi.py:247-249 | `ă` before the offglide `y` or `u` becomes `a`, anything else is kept; add_short_a gives the same result before and after it |
| VietnameseRules.DenormQ | cjkvo/vi.py:258-261 | the initial `q` with a glide becomes `qu` and the glide is dropped; anything else is kept; norm_q followed by norm_glide undoes it |
| VietnameseRules.DeduplicateI | cjkvo/vi.py:236-239 | initial `gi` with nucleus `i` becomes the initial `gi` bearing the tone on its `i`, with nucleus and tone None; anything else is kept; duplicate_i undoes it |
| VietnameseRules.DuplicateAfterDeduplicate | cjkvo/vi.py:227-239 | extract_tone on the toned `gi` gives back the tone and `gi` |
| VietnameseRules.DenormTone | cjkvo/vi.py:134-138 | with a nucleus and a tone, the tone mark goes on the first letter of the nucleus when there is no coda and on its last letter otherwise, and the tone slot is emptied; otherwise nothing changes; only nucleus and tone change |
| VietnameseRules.NormToneUndoesDenorm | cjkvo/vi.py:121-138 | norm_tone(denorm_tone(s)) == s when nucleus and glide bear no mark |
| VietnameseRules.Normalize | cjkvo/vi.py:264-275 | raises (MissingNucleus) exactly when there is neither a nucleus nor a bare `gi` |
| VietnameseRules.Denormalize | cjkvo/vi.py:278-286 | raises (MissingNucleus) exactly when the nucleus is absent or empty; on success the tone slot is None |
| VietnameseRules.NormNucleusKeepsA | cjkvo/vi.py:170-172 | norm_nucleus never produces `a` from another nucleus |
| VietnameseRules.NormCodaOffglides | cjkvo/vi.py:211-217 | the only offglide norm_coda produces is `u` |
| VietnameseRules.ShortARuleSurvives | cjkvo/vi.py:270-275 | after add_short_a, the remaining steps leave `a` before an offglide only when the offglide is the `u` norm_coda made |
| VietnameseRules.NormalTail | cjkvo/vi.py:272-275 | the last four steps of normalize give normal slots |
| VietnameseRules.NormalizeIsNormal | cjkvo/vi.py:264-275 | on success the nucleus is present; the glide is `w` or absent; the initial is never qu, q, c, ngh, gh, đ; the coda is never y or o |
| VietnameseRules.NormGlideCommutes | cjkvo/vi.py:271-273 | norm_glide commutes with add_short_a and norm_initial |
| VietnameseRules.InnerStepsUndone | cjkvo/vi.py:270-286 | the last four steps of normalize undo the first four of denormalize on normal slots |
| VietnameseRules.InnerStepsShape | cjkvo/vi.py:279-282 | on normal slots the first four steps of denormalize leave a tone-free nucleus and glide, and no `qu` |
| VietnameseRules.DenormNucleusKeepsA | cjkvo/vi.py:175-195 | denorm_nucleus never produces `a` from another nucleus |
| VietnameseRules.DenormCodaShortA | cjkvo/vi.py:220-224 | denorm_coda turns the `u` after `a` into `o`, leaving no `a` before an offglide |
| VietnameseRules.InnerStepsShortA | cjkvo/vi.py:279-282 | on normal slots the first four steps of denormalize leave no `a` before an offglide |
| VietnameseRules.OuterStepsUndone | cjkvo/vi.py:264-286 | the first four steps of normalize undo the last four of denormalize |
| VietnameseRules.NormalizeUndoesDenormalize | cjkvo/vi.py:264-286 | for every normal record, denormalize succeeds, and normalize of its result gives back the record |
| VietnameseRules.ParseVietnamese | cjkvo/vi.py:289-292 | SegmentationError when the pattern cannot cover the input; otherwise normalize applied to segment's result; every success is normal |
| VietnameseRules.EmitVietnamese | cjkvo/vi.py:295-298 | fails exactly when the nucleus is absent or empty; otherwise the denormalized slots joined, with no tone letter |
| VietnameseRules.ParseEmitNormalizes | cjkvo/vi.py:289-298 | denormalizing what parse_vietnamese returned, then normalizing, gives the same record back |
| VietnameseSyllable.Syllable.NormTone | cjkvo/vi.py:121-131 | the fields become what NormTone gives for the old ones |
| VietnameseSyllable.Syllable.DenormTone | cjkvo/vi.py:134-138 | the fields become what DenormTone gives for the old ones |
| VietnameseSyllable.Syllable.NormInitial | cjkvo/vi.py:141-150 | the fields become what NormInitial gives for the old ones |
| VietnameseSyllable.Syllable.DenormInitial | cjkvo/vi.py:153-167 | raises exactly when DenormInitial fails, changing nothing; otherwise the fields become its result |
| VietnameseSyllable.Syllable.NormNucleus | cjkvo/vi.py:170-172 | the fields become what NormNucleus gives for the old ones |
| VietnameseSyllable.Syllable.DenormNucleus | cjkvo/vi.py:175-195 | the fields become what DenormNucleus gives for the old ones |
| VietnameseSyllable.Syllable.NormGlide | cjkvo/vi.py:197-199 | the fields become what NormGlide gives for the old ones |
| VietnameseSyllable.Syllable.DenormGlide | cjkvo/vi.py:202-208 | raises exactly when DenormGlide fails, changing nothing; otherwise the fields become its result |
| VietnameseSyllable.Syllable.NormCoda | cjkvo/vi.py:211-217 | the fields become what NormCoda gives for the old ones |
| VietnameseSyllable.Syllable.DenormCoda | cjkvo/vi.py:220-224 | the fields become what DenormCoda gives for the old ones |
| VietnameseSyllable.Syllable.DuplicateI | cjkvo/vi.py:227-233 | the fields become what DuplicateI gives for the old ones |
| VietnameseSyllable.Syllable.DeduplicateI | cjkvo/vi.py:236-239 | the fields become what DeduplicateI gives for the old ones |
| VietnameseSyllable.Syllable.AddShortA | cjkvo/vi.py:242-244 | the fields become what AddShortA gives for the old ones |
| VietnameseSyllable.Syllable.RemoveShortA | cjkvo/vi.py:247-249 | the fields become what RemoveShortA gives for the old ones |
| VietnameseSyllable.Syllable.NormQ | cjkvo/vi.py:252-255 | the fields become what NormQ gives for the old ones |
| VietnameseSyllable.Syllable.DenormQ | cjkvo/vi.py:258-261 | the fields become what DenormQ gives for the old ones |
| VietnameseSyllable.Syllable.Normalize | cjkvo/vi.py:264-275 | raises exactly when Normalize fails, leaving the changes of norm_tone and duplicate_i; otherwise the fields become its result |
| VietnameseSyllable.Syllable.Denormalize | cjkvo/vi.py:278-286 | raises exactly when Denormalize fails, leaving the changes of denorm_coda and denorm_nucleus; otherwise the fields become its result |
| VietnameseSyllable.ParseVietnamese | cjkvo/vi.py:289-292 | the object-based pipeline returns what VietnameseRules.ParseVietnamese gives, so every success is normal |
| VietnameseSyllable.EmitVietnamese | cjkvo/vi.py:295-298 | the object-based pipeline returns what VietnameseRules.EmitVietnamese gives: the denormalized slots joined |
| VietnameseCases.SegmentOf | cjkvo/vi.py:99-118 | a line-free syllable made of its initial, a rime ending in a vowel letter and a listed coda is segmented as the rime rules split those three pieces |
| VietnameseCases.NormalizeThrough | cjkvo/vi.py:264-275 | normalize succeeds with the slots its eight steps reach when the first four leave a nucleus |
| VietnameseCases.DenormalizeThrough | cjkvo/vi.py:278-286 | denormalize succeeds with the slots its eight steps reach when denorm_glide and denorm_initial succeed |
| VietnameseCases.RoundTrip | cjkvo/test_vi.py:4-9 | when segment gives slots that normalize maps to a record and denormalize maps back, parse_vietnamese returns the record and emit_vietnamese writes the line-free syllable again |
| VietnameseCases.QuaRoundTrip | cjkvo/test_vi.py:14 | parse_vietnamese(`qua`) is (k, w, a, -, -), and emit_vietnamese writes `qua` back |
| VietnameseCases.HoaRoundTrip | cjkvo/test_vi.py:15 | parse_vietnamese(`hoa`) is (h, w, a, -, -), and emit_vietnamese writes `hoa` back |
| VietnameseCases.HoayRoundTrip | cjkvo/test_vi.py:16 | parse_vietnamese(`hoay`) is (h, w, aw, i, -), and emit_vietnamese writes `hoay` back |
| VietnameseCases.KhoeRoundTrip | cjkvo/test_vi.py:17 | parse_vietnamese(`khoẻ`) is (kh, w, e, -, r), and emit_vietnamese writes `khoẻ` back |
| VietnameseCases.NhoaRoundTrip | cjkvo/test_vi.py:18 | parse_vietnamese(`nhoà`) is (nh, w, a, -, f), and emit_vietnamese writes `nhoà` back |
| VietnameseCases.NguyRoundTrip | cjkvo/test_vi.py:19 | parse_vietnamese(`nguy`) is (ng, w, i, -, -), and emit_vietnamese writes `nguy` back |
| VietnameseCases.ThueRoundTrip | cjkvo/test_vi.py:20 | parse_vietnamese(`thuê`) is (th, w, ee, -, -), and emit_vietnamese writes `thuê` back |
| VietnameseCases.ThuoRoundTrip | cjkvo/test_vi.py:21 | parse_vietnamese(`thuở`) is (th, w, ow, -, r), and emit_vietnamese writes `thuở` back |
| VietnameseCases.KhuayRoundTrip | cjkvo/test_vi.py:22 | parse_vietnamese(`khuấy`) is (kh, w, aa, i, s), and emit_vietnamese writes `khuấy` back |
| VietnameseCases.KhuyaRoundTrip | cjkvo/test_vi.py:23 | parse_vietnamese(`khuya`) is (kh, w, ia, -, -), and emit_vietnamese writes `khuya` back |
| VietnameseCases.QuyenRoundTrip | cjkvo/test_vi.py:24 | parse_vietnamese(`quyển`) is (k, w, ia, n, r), and emit_vietnamese writes `quyển` back |
| VietnameseCases.HoangRoundTrip | cjkvo/test_vi.py:25 | parse_vietnamese(`hoằng`) is (h, w, aw, ng, f), and emit_vietnamese writes `hoằng` back |
| VietnameseCases.HuyRoundTrip | cjkvo/test_vi.py:26 | parse_vietnamese(`huỷ`) is (h, w, i, -, r), and emit_vietnamese writes `huỷ` back |
| VietnameseCases.YRoundTrip | cjkvo/test_vi.py:32 | parse_vietnamese(`ý`), the lower-cased `Ý`, is (-, -, i, -, s), and emit_vietnamese writes `ý` back |
| VietnameseCases.KhiRoundTrip | cjkvo/test_vi.py:33 | parse_vietnamese(`khỉ`) is (kh, -, i, -, r), and emit_vietnamese writes `khỉ` back |
| VietnameseCases.CaRoundTrip | cjkvo/test_vi.py:39 | parse_vietnamese(`ca`) is (k, -, a, -, -), and emit_vietnamese writes `ca` back |
| VietnameseCases.KiaRoundTrip | cjkvo/test_vi.py:41 | parse_vietnamese(`kia`) is (k, -, ia, -, -), and emit_vietnamese writes `kia` back |
| VietnameseCases.NgaRoundTrip | cjkvo/test_vi.py:47 | parse_vietnamese(`nga`) is (ng, -, a, -, -), and emit_vietnamese writes `nga` back |
| VietnameseCases.NgheRoundTrip | cjkvo/test_vi.py:48 | parse_vietnamese(`nghe`) is (ng, -, e, -, -), and emit_vietnamese writes `nghe` back |
| VietnameseCases.NghiemRoundTrip | cjkvo/test_vi.py:49 | parse_vietnamese(`nghiêm`) is (ng, -, ia, m, -), and emit_vietnamese writes `nghiêm` back |
| VietnameseCases.GaRoundTrip | cjkvo/test_vi.py:55 | parse_vietnamese(`ga`) is (g, -, a, -, -), and emit_vietnamese writes `ga` back |
| VietnameseCases.GhetRoundTrip | cjkvo/test_vi.py:56 | parse_vietnamese(`ghét`) is (g, -, e, t, s), and emit_vietnamese writes `ghét` back |
| VietnameseCases.ThienRoundTrip | cjkvo/test_vi.py:63 | parse_vietnamese(`thiên`) is (th, -, ia, n, -), and emit_vietnamese writes `thiên` back |
| VietnameseCases.MuonRoundTrip | cjkvo/test_vi.py:64 | parse_vietnamese(`muốn`) is (m, -, ua, n, s), and emit_vietnamese writes `muốn` back |
| VietnameseCases.NuocRoundTrip | cjkvo/test_vi.py:65 | parse_vietnamese(`nước`) is (n, -, uwa, c, s), and emit_vietnamese writes `nước` back |
| VietnameseCases.BuaRoundTrip | cjkvo/test_vi.py:66 | parse_vietnamese(`bữa`) is (b, -, uwa, -, x), and emit_vietnamese writes `bữa` back |
| VietnameseCases.TayRoundTrip | cjkvo/test_vi.py:72 | parse_vietnamese(`tay`) is (t, -, aw, i, -), and emit_vietnamese writes `tay` back |
| VietnameseCases.AiRoundTrip | cjkvo/test_vi.py:73 | parse_vietnamese(`ai`) is (-, -, a, i, -), and emit_vietnamese writes `ai` back |
| VietnameseCases.HeoRoundTrip | cjkvo/test_vi.py:74 | parse_vietnamese(`heo`) is (h, -, e, u, -), and emit_vietnamese writes `heo` back |
| VietnameseCases.TaoRoundTrip | cjkvo/test_vi.py:75 | parse_vietnamese(`táo`) is (t, -, a, u, s), and emit_vietnamese writes `táo` back |
| VietnameseCases.DauRoundTrip | cjkvo/test_vi.py:76 | parse_vietnamese(`đâu`) is (dd, -, aa, u, -), and emit_vietnamese writes `đâu` back |
| VietnameseCases.YeuRoundTrip | cjkvo/test_vi.py:88 | parse_vietnamese(`yêu`) is (-, -, ia, u, -), and emit_vietnamese writes `yêu` back |
| VietnameseCases.GiRoundTrip | cjkvo/test_vi.py:94 | parse_vietnamese(`gì`) is (gi, -, i, -, f), and emit_vietnamese writes `gì` back |
| VietnameseCases.GiuongRoundTrip | cjkvo/test_vi.py:95 | parse_vietnamese(`giường`) is (gi, -, uwa, ng, f), and emit_vietnamese writes `giường` back |
| VietnameseCases.HoaHookRoundTrip | cjkvo/test_vi.py:101 | parse_vietnamese(`hỏa`) is (h, w, a, -, r), and emit_vietnamese writes that record as `hoả` |
| VietnameseCases.TuyAcuteRoundTrip | cjkvo/test_vi.py:102 | parse_vietnamese(`túy`) is (t, w, i, -, s), and emit_vietnamese writes that record as `tuý` |
| VietnameseCases.KyAcuteRoundTrip | cjkvo/test_vi.py:103 | parse_vietnamese(`ký`) is (k, -, i, -, s), and emit_vietnamese writes that record as `kí` |
| Japanese.Enlarged | cjkvo/ja.py:10-13 | a small kana becomes the next code point; any other character is kept |
| Japanese.EnlargedIsNotSmall | cjkvo/ja.py:10-11 | the enlarged form of a small kana is not small |
| Japanese.KatakanaSized | cjkvo/ja.py:7-14 | same length; each character is enlarged in place |
| Japanese.NormalizeKatakanaSize | cjkvo/ja.py:7-14 | the loop returns KatakanaSized(s), and no small kana is left |
| Japanese.Replace | cjkvo/ja.py:19-23 | str.replace: a text without the pattern comes back unchanged; the pattern alone becomes the replacement; a replacement no longer than the pattern never lengthens the text |
| Japanese.NormalizeRomaji | cjkvo/ja.py:17-19 | never lengthens the text; a text with neither `dyi` nor `fu` is unchanged |
| Japanese.RomajiRewrites | cjkvo/ja.py:17-19 | `dyi` is rewritten to `di` and `fu` to `hu` |
| Japanese.NormalizeGlides | cjkvo/ja.py:22-23 | never lengthens the text; a text with neither `uw` nor `iy` is unchanged |
| Japanese.GlideRewrites | cjkvo/ja.py:22-23 | `uwa` is rewritten to `wa` and `kiya` to `kya` |
| Japanese.MedialAt | cjkvo/ja.py:29 | the medial found is one of `wy`, `w`, `y` and begins the text |
| Japanese.MedialAtComplete | cjkvo/ja.py:29-34 | before a vowel, the medial found is the one written |
| Japanese.FinalOf | cjkvo/ja.py:32-34 | a final found is one of the nine finals and, with at most a trailing line break, is all that follows the nucleus |
| Japanese.FinalsEndInLetters | cjkvo/ja.py:32 | no final is empty or ends in a line break |
| Japanese.FinalOfComplete | cjkvo/ja.py:32-34 | a written final, with or without a trailing line break, is found as written |
| Japanese.InitialOf | cjkvo/ja.py:27-28 | the initial found is one letter of `kgsztdnhbmr` and begins the text |
| Japanese.InitialOfComplete | cjkvo/ja.py:27-34 | before a letter that is no initial, the initial found is the one written |
| Japanese.ParseRomaji | cjkvo/ja.py:26-37 | the only error is UnableToParse; every success is a decomposition the pattern allows: each group one of its alternatives, the nucleus a vowel, the groups spelling the input |
| Japanese.MedialsAreNoInitials | cjkvo/ja.py:27-29 | no medial starts with an initial letter |
| Japanese.VowelsAreNoInitials | cjkvo/ja.py:27-31 | no vowel is an initial letter |
| Japanese.NucleusAndFinalComplete | cjkvo/ja.py:30-34 | a written vowel and final are found as written |
| Japanese.ParseRomajiComplete | cjkvo/ja.py:26-37 | every decomposition the pattern allows is the one returned, so parse_romaji accepts exactly the pattern's strings and its groups are unique |
| Japanese.ParseJapanese | cjkvo/ja.py:40-43 | a success is a decomposition of the rewritten romanization |

## Left out

- Unicode normalization (NFD/NFC, cjkvo/vi.py:59, 66, 73, 75) is not modelled. A letter is a base letter with at most one tone mark. So a letter with two tone marks cannot be written, and AddTone on a letter that already has a mark replaces it, where the source would stack a second combining mark.
- VietnameseRules.ParseVietnamese: takes the syllable already lower-case. The Unicode case mapping `str.lower` (cjkvo/vi.py:290) is not modelled.
- The tone slot holds one of the five tones or None. A caller-supplied tone tag outside `sfrxj`, which makes `add_tone` fail with KeyError, cannot be expressed.
- The `ValueError` messages are not modelled; only which error is raised is.
- VietnameseSegment.Segment and Japanese.ParseRomaji: like Python's `$`, they also accept one line break ending the input. So `parse_romaji` accepts the pattern's strings and those strings followed by `"\n"` (Japanese.Spells says which).
- VietnameseRules.Normal: says a present glide is `w`. An empty glide text, which segment never produces, is not excluded.
- normalize is not idempotent, and nothing here claims it is. norm_tone overwrites the tone slot on a second pass, and add_short_a turns a normalized `a` + `u` into `ă`.
- `romkan.to_kunrei` (cjkvo/ja.py:41) is a foreign library. Japanese.ParseJapanese takes its output as the parameter `romaji`.
- cjkvo/test_ja.py reads a data file, which is file I/O, and is not part of this model.
- Japanese.Replace models Python's `str.replace` with a non-empty pattern, the only kind cjkvo/ja.py uses. Only the properties the rewriters need are proved about it, not a general characterization.
