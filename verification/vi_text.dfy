/**
 * Letters, texts and the five-slot syllable record of the Vietnamese engine.
 *
 * A quốc ngữ letter is modelled as its base letter (which keeps any vowel-quality
 * diacritic, as in ă, â, ê, ô, ơ, ư, and the stroke of đ) together with at most one
 * tone mark. This is what Unicode canonical decomposition exposes to the engine: a
 * precomposed `ả` is the base `a` with the hook-above tone, `ế` is the base `ê` with
 * the acute tone.
 */
module VietnameseText {
  import opened Results

  /** The five marked tones, named by their Telex tags:
    * sắc (s), huyền (f), hỏi (r), ngã (x), nặng (j). The level tone ngang is "no tone". */
  datatype Tone = S | F | R | X | J

  /** The one-letter tag the engine stores in the tone slot. */
  function Tag(t: Tone): (c: char)
    ensures c in "sfrxj"
  {
    match t
    case S => 's'
    case F => 'f'
    case R => 'r'
    case X => 'x'
    case J => 'j'
  }

  datatype Letter = Letter(base: char, tone: Option<Tone>)

  type Text = seq<Letter>

  /** No letter of `s` carries a tone mark. */
  predicate Toneless(s: Text) {
    forall i :: 0 <= i < |s| ==> s[i].tone.None?
  }

  /** The letters of a text, without their tone marks, as a string. */
  function Bases(t: Text): (s: string)
    ensures |s| == |t| && forall i :: 0 <= i < |t| ==> s[i] == t[i].base
  {
    seq(|t|, i requires 0 <= i < |t| => t[i].base)
  }

  /** The text spelled by `s` with no tone marks. */
  function Plain(s: string): (t: Text)
    ensures |t| == |s|
    ensures forall i :: 0 <= i < |s| ==> t[i] == Letter(s[i], None)
  {
    if s == "" then [] else [Letter(s[0], None)] + Plain(s[1..])
  }

  /** A plain text carries no tone mark and spells its string. */
  lemma PlainSpells(s: string)
    ensures Toneless(Plain(s)) && Bases(Plain(s)) == s
  {
  }

  /** A tone-free text is the plain spelling of its letters. */
  lemma TonelessIsPlain(t: Text)
    requires Toneless(t)
    ensures Plain(Bases(t)) == t
  {
    assert forall i :: 0 <= i < |t| ==> Plain(Bases(t))[i] == t[i];
  }

  /** The text spelled by `s` with tone `t` on its letter at position `i`. */
  function Toned(s: string, i: nat, t: Tone): Text
    requires i < |s|
  {
    Plain(s)[i := Letter(s[i], Some(t))]
  }

  /** Python's truthiness of an optional string: present and not empty. */
  predicate Present(o: Option<Text>) {
    o.Some? && o.value != []
  }

  /** An optional slot as a text, an absent slot reading as empty. */
  function OrEmpty(o: Option<Text>): Text {
    if o.Some? then o.value else []
  }

  /** The five slots `(initial, glide, nucleus, coda, tone)` of a syllable
    * (the `tuple()` of `Syllable` in cjkvo/vi.py). */
  datatype Slots = Slots(initial: Option<Text>, glide: Option<Text>, nucleus: Option<Text>,
                         coda: Option<Text>, tone: Option<Tone>)

  /** The letters of the four spelled slots, written one after the other. */
  function Spelling(r: Slots): Text {
    OrEmpty(r.initial) + OrEmpty(r.glide) + OrEmpty(r.nucleus) + OrEmpty(r.coda)
  }

  /** The two ValueErrors the engine raises. */
  datatype Error = SegmentationError | MissingNucleus
}
