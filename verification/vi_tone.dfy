/**
 * Tone marks: the table between combining marks and tone tags, taking the tone
 * off a text (`extract_tone`) and putting it back on (`add_tone`).
 */
module VietnameseTone {
  import opened Results
  import opened VietnameseText

  /** UNICODE_TONE: the tone a combining mark stands for, if any. */
  function ToneOfMark(c: char): (t: Option<Tone>)
    ensures t.Some? <==> c in ['\U{0301}', '\U{0300}', '\U{0309}', '\U{0303}', '\U{0323}']
  {
    if c == '\U{0301}' then Some(S)
    else if c == '\U{0300}' then Some(F)
    else if c == '\U{0309}' then Some(R)
    else if c == '\U{0303}' then Some(X)
    else if c == '\U{0323}' then Some(J)
    else None
  }

  /** TONE_UNICODE: the combining mark of a tone, the one UNICODE_TONE reads back as
    * that tone. */
  function MarkOf(t: Tone): (c: char)
    ensures ToneOfMark(c) == Some(t)
  {
    match t
    case S => '\U{0301}'
    case F => '\U{0300}'
    case R => '\U{0309}'
    case X => '\U{0303}'
    case J => '\U{0323}'
  }

  /** TONE_UNICODE is built by inverting UNICODE_TONE, and the two tables are exact inverses. */
  lemma MarkTablesInverse(t: Tone, c: char)
    ensures ToneOfMark(c) == Some(t) <==> MarkOf(t) == c
  {
  }

  /** The tone `extract_tone` reports: the last tone mark met scanning left to right. */
  function LastTone(s: Text): (t: Option<Tone>)
    ensures t.None? <==> Toneless(s)
    ensures t.Some? ==> exists i :: 0 <= i < |s| && s[i].tone == t &&
                                    forall j :: i < j < |s| ==> s[j].tone.None?
  {
    if s == [] then None
    else if s[|s| - 1].tone.Some? then s[|s| - 1].tone
    else LastTone(s[..|s| - 1])
  }

  /** The text `extract_tone` returns: every letter with its tone mark taken off. */
  function Strip(s: Text): (r: Text)
    ensures |r| == |s| && Toneless(r)
    ensures forall i :: 0 <= i < |s| ==> r[i].base == s[i].base
  {
    seq(|s|, i requires 0 <= i < |s| => Letter(s[i].base, None))
  }

  /** Stripping is the identity exactly on tone-free texts. */
  lemma StripFixesToneless(s: Text)
    ensures Strip(s) == s <==> Toneless(s)
  {
    if Toneless(s) {
      assert forall i :: 0 <= i < |s| ==> Strip(s)[i] == s[i];
    } else {
      var i :| 0 <= i < |s| && s[i].tone.Some?;
      assert Strip(s)[i] != s[i];
    }
  }

  /** extract_tone: one pass over the letters, remembering the latest tone mark and
    * collecting the letters without their marks. */
  method ExtractTone(s: Text) returns (tone: Option<Tone>, rest: Text)
    ensures tone == LastTone(s) && rest == Strip(s)
  {
    tone := None;
    rest := [];
    for k := 0 to |s|
      invariant tone == LastTone(s[..k])
      invariant rest == Strip(s[..k])
    {
      var c := s[k];
      if c.tone.Some? {
        tone := c.tone;
      }
      rest := rest + [Letter(c.base, None)];
      assert s[..k + 1][..k] == s[..k];
      assert rest == Strip(s[..k + 1]);
    }
    assert s[..|s|] == s;
  }

  /** add_tone: puts the mark of `tone` on the first letter when `atBeginning`, on the
    * last letter otherwise; with no tone the text comes back unchanged. */
  function AddTone(tone: Option<Tone>, rest: Text, atBeginning: bool): (r: Text)
    requires tone.Some? ==> rest != []
    ensures |r| == |rest|
    ensures tone.None? ==> r == rest
    ensures forall i :: 0 <= i < |r| ==> r[i].base == rest[i].base
    ensures tone.Some? ==> r[if atBeginning then 0 else |r| - 1].tone == tone
    ensures tone.Some? ==> forall i :: 0 <= i < |r| && i != (if atBeginning then 0 else |r| - 1) ==> r[i] == rest[i]
  {
    if tone.Some? && atBeginning then [Letter(rest[0].base, tone)] + rest[1..]
    else if tone.Some? then rest[..|rest| - 1] + [Letter(rest[|rest| - 1].base, tone)]
    else rest
  }

  /** The tone of a text with a single tone mark is that mark's tone. */
  lemma LastToneOfSingleMark(x: Text, p: nat)
    requires p < |x| && x[p].tone.Some?
    requires forall i :: 0 <= i < |x| && i != p ==> x[i].tone.None?
    ensures LastTone(x) == x[p].tone
  {
    assert !Toneless(x) by { assert x[p].tone.Some?; }
    assert LastTone(x).Some?;
    var i :| 0 <= i < |x| && x[i].tone == LastTone(x) && forall j :: i < j < |x| ==> x[j].tone.None?;
    assert x[i].tone.Some?;
    assert !(p < i) by { assert x[p].tone.Some?; }
  }

  /** Extracting the tone from what add_tone produced on a tone-free text gives back
    * the tone and the text. */
  lemma ExtractAfterAddTone(tone: Tone, rest: Text, atBeginning: bool)
    requires rest != [] && Toneless(rest)
    ensures LastTone(AddTone(Some(tone), rest, atBeginning)) == Some(tone)
    ensures Strip(AddTone(Some(tone), rest, atBeginning)) == rest
  {
    var r := AddTone(Some(tone), rest, atBeginning);
    LastToneOfSingleMark(r, if atBeginning then 0 else |r| - 1);
    assert forall i :: 0 <= i < |r| ==> Strip(r)[i] == rest[i];
  }

  /** add_tone undoes extract_tone on a text with a single tone mark, provided the mark
    * sits where add_tone puts it: on the first letter (`atBeginning`) or on the last. */
  lemma AddToneAfterExtract(x: Text, p: nat)
    requires p < |x| && x[p].tone.Some?
    requires forall i :: 0 <= i < |x| && i != p ==> x[i].tone.None?
    requires p == 0 || p == |x| - 1
    ensures AddTone(LastTone(x), Strip(x), p == 0) == x
  {
    LastToneOfSingleMark(x, p);
    var r := AddTone(x[p].tone, Strip(x), p == 0);
    assert p == (if p == 0 then 0 else |r| - 1);
    forall k | 0 <= k < |x|
      ensures r[k] == x[k]
    {
      assert r[k].base == x[k].base;
      if k != p {
        assert r[k] == Strip(x)[k];
      }
    }
  }
}
