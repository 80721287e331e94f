/**
 * The `Syllable` object of cjkvo/vi.py and the steps that rewrite it in place. Each
 * method changes the five fields exactly as the slot function of the same name in
 * VietnameseRules says; a method of the source that raises ValueError returns the error
 * in `raised`, the fields holding whatever the steps before the raise left in them.
 */
module VietnameseSyllable {
  import opened Results
  import opened VietnameseText
  import opened VietnameseTone
  import opened VietnameseSegment
  import Sequences
  import VietnameseRules

  class Syllable {
    var initial: Option<Text>
    var glide: Option<Text>
    var nucleus: Option<Text>
    var coda: Option<Text>
    var tone: Option<Tone>

    constructor (initial: Option<Text>, glide: Option<Text>, nucleus: Option<Text>,
                 coda: Option<Text>, tone: Option<Tone>)
      ensures Tuple() == Slots(initial, glide, nucleus, coda, tone)
    {
      this.initial := initial;
      this.glide := glide;
      this.nucleus := nucleus;
      this.coda := coda;
      this.tone := tone;
    }

    /** tuple(): the five fields in order. */
    function Tuple(): (t: Slots)
      reads this
      ensures t.initial == initial && t.glide == glide && t.nucleus == nucleus
      ensures t.coda == coda && t.tone == tone
    {
      Slots(initial, glide, nucleus, coda, tone)
    }

    method NormTone()
      modifies this
      ensures Tuple() == VietnameseRules.NormTone(old(Tuple()))
    {
      if Present(nucleus) {
        var t, rest := ExtractTone(nucleus.value);
        tone := t;
        nucleus := Some(rest);
      }
      if tone.None? && Present(glide) {
        var t, rest := ExtractTone(glide.value);
        if t.Some? {
          tone := t;
          glide := Some(rest);
        }
      }
    }

    method DenormTone()
      modifies this
      ensures Tuple() == VietnameseRules.DenormTone(old(Tuple()))
    {
      if Present(nucleus) && tone.Some? {
        nucleus := Some(AddTone(tone, nucleus.value, !Present(coda)));
        tone := None;
      }
    }

    method NormInitial()
      modifies this
      ensures Tuple() == VietnameseRules.NormInitial(old(Tuple()))
    {
      if initial.Some? && VietnameseRules.InitialRespelled(initial.value).Some? {
        initial := VietnameseRules.InitialRespelled(initial.value);
      }
    }

    method DenormInitial() returns (raised: Option<Error>)
      modifies this
      ensures raised.Some? <==> VietnameseRules.DenormInitial(old(Tuple())).Err?
      ensures raised.Some? ==> raised.value == MissingNucleus && Tuple() == old(Tuple())
      ensures raised.None? ==> Tuple() == VietnameseRules.DenormInitial(old(Tuple())).value
    {
      if !Present(nucleus) {
        return Some(MissingNucleus);
      }
      raised := None;
      if !Present(initial) {
        return;
      }
      var sp := VietnameseRules.Found(initial.value,
                  VietnameseRules.InitialSpelling(Bases(initial.value), Present(glide),
                                                  VietnameseRules.StartsWithOneOf(nucleus.value, "ieê"),
                                                  VietnameseRules.StartsWithOneOf(nucleus.value, "yieê")));
      if sp.Some? {
        initial := sp;
      }
    }

    method NormNucleus()
      modifies this
      ensures Tuple() == VietnameseRules.NormNucleus(old(Tuple()))
    {
      if nucleus.Some? && VietnameseRules.NucleusRespelled(nucleus.value).Some? {
        nucleus := VietnameseRules.NucleusRespelled(nucleus.value);
      }
    }

    method DenormNucleus()
      modifies this
      ensures Tuple() == VietnameseRules.DenormNucleus(old(Tuple()))
    {
      if nucleus.Some? {
        var sp := VietnameseRules.Found(nucleus.value,
                    VietnameseRules.NucleusSpelling(Bases(nucleus.value), Present(glide), Present(coda), Present(initial)));
        if sp.Some? {
          nucleus := sp;
        }
      }
    }

    method NormGlide()
      modifies this
      ensures Tuple() == VietnameseRules.NormGlide(old(Tuple()))
    {
      if Present(glide) {
        glide := Some(Plain("w"));
      }
    }

    method DenormGlide() returns (raised: Option<Error>)
      modifies this
      ensures raised.Some? <==> VietnameseRules.DenormGlide(old(Tuple())).Err?
      ensures raised.Some? ==> raised.value == MissingNucleus && Tuple() == old(Tuple())
      ensures raised.None? ==> Tuple() == VietnameseRules.DenormGlide(old(Tuple())).value
    {
      if !Present(nucleus) {
        return Some(MissingNucleus);
      }
      if Present(glide) && Sequences.IsInfix(nucleus.value, Plain("aăe")) {
        glide := Some(Plain("o"));
      }
      if Present(glide) && VietnameseRules.StartsWithOneOf(nucleus.value, "yêơâ") {
        glide := Some(Plain("u"));
      }
      return None;
    }

    method NormCoda()
      modifies this
      ensures Tuple() == VietnameseRules.NormCoda(old(Tuple()))
    {
      if coda.Some? && VietnameseRules.CodaRespelled(coda.value).Some? {
        coda := VietnameseRules.CodaRespelled(coda.value);
      }
    }

    method DenormCoda()
      modifies this
      ensures Tuple() == VietnameseRules.DenormCoda(old(Tuple()))
    {
      if coda == Some(Plain("i")) && (nucleus == Some(Plain("aw")) || nucleus == Some(Plain("aa"))) {
        coda := Some(Plain("y"));
      } else if coda == Some(Plain("u")) && (nucleus == Some(Plain("e")) || nucleus == Some(Plain("a"))) {
        coda := Some(Plain("o"));
      }
    }

    method DuplicateI()
      modifies this
      ensures Tuple() == VietnameseRules.DuplicateI(old(Tuple()))
    {
      if Present(initial) {
        var t, rest := ExtractTone(initial.value);
        if nucleus.None? && rest == Plain("gi") {
          nucleus := Some(Plain("i"));
          initial := Some(Plain("gi"));
          tone := t;
        }
      }
    }

    method DeduplicateI()
      modifies this
      ensures Tuple() == VietnameseRules.DeduplicateI(old(Tuple()))
    {
      if initial == Some(Plain("gi")) && nucleus == Some(Plain("i")) {
        VietnameseRules.DuplicateAfterDeduplicate(tone);
        initial := Some(AddTone(tone, Plain("gi"), false));
        nucleus := None;
        tone := None;
      }
    }

    method AddShortA()
      modifies this
      ensures Tuple() == VietnameseRules.AddShortA(old(Tuple()))
    {
      if nucleus == Some(Plain("a")) && VietnameseRules.OffglideYU(coda) {
        nucleus := Some(Plain("ă"));
      }
    }

    method RemoveShortA()
      modifies this
      ensures Tuple() == VietnameseRules.RemoveShortA(old(Tuple()))
    {
      if nucleus == Some(Plain("ă")) && VietnameseRules.OffglideYU(coda) {
        nucleus := Some(Plain("a"));
      }
    }

    method NormQ()
      modifies this
      ensures Tuple() == VietnameseRules.NormQ(old(Tuple()))
    {
      if initial == Some(Plain("qu")) {
        initial := Some(Plain("q"));
        glide := Some(Plain("w"));
      }
    }

    method DenormQ()
      modifies this
      ensures Tuple() == VietnameseRules.DenormQ(old(Tuple()))
    {
      if initial == Some(Plain("q")) && Present(glide) {
        initial := Some(Plain("qu"));
        glide := None;
      }
    }

    /** normalize: the eight steps in order. The check for a nucleus comes after norm_tone
      * and duplicate_i, whose changes stay when it fails. */
    method Normalize() returns (raised: Option<Error>)
      modifies this
      ensures raised.Some? <==> VietnameseRules.Normalize(old(Tuple())).Err?
      ensures raised.Some? ==> raised.value == MissingNucleus &&
                               Tuple() == VietnameseRules.DuplicateI(VietnameseRules.NormTone(old(Tuple())))
      ensures raised.None? ==> Tuple() == VietnameseRules.Normalize(old(Tuple())).value
    {
      NormTone();
      DuplicateI();
      if !Present(nucleus) {
        return Some(MissingNucleus);
      }
      NormQ();
      AddShortA();
      NormInitial();
      NormGlide();
      NormNucleus();
      NormCoda();
      return None;
    }

    /** denormalize: the eight inverse steps in order. denorm_glide refuses a syllable
      * with no nucleus after denorm_coda and denorm_nucleus have run. */
    method Denormalize() returns (raised: Option<Error>)
      modifies this
      ensures raised.Some? <==> VietnameseRules.Denormalize(old(Tuple())).Err?
      ensures raised.Some? ==> raised.value == MissingNucleus &&
                               Tuple() == VietnameseRules.DenormNucleus(VietnameseRules.DenormCoda(old(Tuple())))
      ensures raised.None? ==> Tuple() == VietnameseRules.Denormalize(old(Tuple())).value
    {
      DenormCoda();
      DenormNucleus();
      raised := DenormGlide();
      if raised.Some? {
        return;
      }
      raised := DenormInitial();
      if raised.Some? {
        return;
      }
      RemoveShortA();
      DenormQ();
      DeduplicateI();
      DenormTone();
    }
  }

  /** parse_vietnamese on lower-case input, through a Syllable object. */
  method ParseVietnamese(s: Text) returns (r: Result<Slots, Error>)
    ensures r == VietnameseRules.ParseVietnamese(s)
    ensures r.Ok? ==> VietnameseRules.Normal(r.value)
  {
    var m := Segment(s);
    if m.Err? {
      return Err(m.error);
    }
    var syllable := new Syllable(m.value.initial, m.value.glide, m.value.nucleus, m.value.coda, m.value.tone);
    var raised := syllable.Normalize();
    if raised.Some? {
      return Err(raised.value);
    }
    r := Ok(syllable.Tuple());
  }

  /** emit_vietnamese, through a Syllable object: denormalize, then join the five slots,
    * an absent one written as nothing. */
  method EmitVietnamese(tup: Slots) returns (e: Result<Text, Error>)
    ensures e == VietnameseRules.EmitVietnamese(tup)
    ensures e.Ok? ==> e.value == Spelling(VietnameseRules.Denormalize(tup).value)
  {
    var syllable := new Syllable(tup.initial, tup.glide, tup.nucleus, tup.coda, tup.tone);
    var raised := syllable.Denormalize();
    if raised.Some? {
      return Err(raised.value);
    }
    e := Ok(OrEmpty(syllable.initial) + OrEmpty(syllable.glide) + OrEmpty(syllable.nucleus)
            + OrEmpty(syllable.coda) + VietnameseRules.ToneText(syllable.tone));
  }
}
