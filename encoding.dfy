/** A fitted category encoder, as the prediction script uses it: the frozen
    list of category strings seen at training time (`classes_`), with
    membership and the string-to-code mapping (`transform`), whose code is
    the category's position in that list. */
module Encoding {

  /** What `transform` gives for one category: its code, or the error raised
      for a category that was not seen when the encoder was fitted. */
  datatype Encoded = Code(code: nat) | UnseenLabel(category: string)

  /** What `inverse_transform` gives for one code. */
  datatype Decoded = Label(category: string) | InvalidCode(code: int)

  datatype Encoder = Encoder(classes: seq<string>) {

    /** A fitted encoder holds each category once. */
    ghost predicate Valid() {
      forall i, j :: 0 <= i < j < |classes| ==> classes[i] != classes[j]
    }

    /** `category in encoder.classes_`: some position holds the category. */
    predicate Contains(category: string): (r: bool)
      ensures r <==> exists k :: 0 <= k < |classes| && classes[k] == category
    {
      category in classes
    }

    /** `encoder.transform([category])[0]`: the position of the category among
        the classes, or an error when the category is unknown. */
    function Transform(category: string): (r: Encoded)
      ensures r.Code? <==> Contains(category)
      ensures r.Code? ==> r.code < |classes| && classes[r.code] == category
      ensures r.UnseenLabel? ==> r.category == category
    {
      match IndexOf(classes, category)
      case Some(k) => Code(k)
      case None => UnseenLabel(category)
    }

    /** `encoder.inverse_transform([code])[0]`: the category stored at that
        position. The prediction script never decodes; this is the inverse
        that the round-trip lemmas below hold `Transform` against. */
    function InverseTransform(code: int): (r: Decoded)
      ensures r.Label? <==> 0 <= code < |classes|
      ensures r.Label? ==> r.category in classes && r.category == classes[code]
      ensures r.InvalidCode? ==> r.code == code
    {
      if 0 <= code < |classes| then Label(classes[code]) else InvalidCode(code)
    }
  }

  datatype Option<T> = None | Some(value: T)

  /** The first position of `x` in `s`, if any. */
  function IndexOf(s: seq<string>, x: string): (r: Option<nat>)
    ensures r.Some? <==> x in s
    ensures r.Some? ==> r.value < |s| && s[r.value] == x && x !in s[..r.value]
  {
    if s == [] then None
    else if s[0] == x then Some(0)
    else match IndexOf(s[1..], x)
      case None => None
      case Some(k) =>
        assert s[..k + 1] == [s[0]] + s[1..][..k];
        Some(k + 1)
  }

  // ---------------------------------------------------------------------
  // Properties

  /** Every known category decodes back to itself. */
  lemma DecodeEncode(e: Encoder, category: string)
    requires e.Contains(category)
    ensures e.Transform(category).Code?
    ensures e.InverseTransform(e.Transform(category).code) == Label(category)
  {
  }

  /** In a fitted encoder every valid code is the code of its own category, so
      `transform` is a bijection between the classes and 0 .. |classes| - 1. */
  lemma EncodeDecode(e: Encoder, code: int)
    requires e.Valid()
    requires 0 <= code < |e.classes|
    ensures e.Transform(e.classes[code]) == Code(code)
  {
  }

  /** Two categories with the same code are the same category. */
  lemma TransformInjective(e: Encoder, a: string, b: string)
    requires e.Transform(a).Code? && e.Transform(b).Code?
    requires e.Transform(a).code == e.Transform(b).code
    ensures a == b
  {
  }
}
