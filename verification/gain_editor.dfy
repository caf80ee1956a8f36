/**
 * The sign policy of the gain editor: when to attach a "+" to displayed
 * gain text, and how typed text is prepared for number parsing.
 */
module Gain {

  // Increment for the up and down arrow keys, in dB.
  const ValueIncrementDefaultDb: real := 0.1

  predicate HasPositiveSign(text: string) {
    |text| > 0 && text[0] == '+'
  }

  predicate HasNegativeSign(text: string) {
    |text| > 0 && text[0] == '-'
  }

  /**
   * The three sign helpers of the string utility library, which is not part
   * of this model. They are parameters, constrained by `Documented` only.
   */
  datatype SignHelpers = SignHelpers(
    attachPositiveSign: string -> string,
    stripPositiveSign: string -> string,
    defaultToNegativeNumber: string -> string)

  /**
   * What the gain editor's comments say of the helpers: attaching adds a "+"
   * only when it is absent; stripping removes a leading "+"; defaulting to
   * negative adds a "-" when no sign was typed and honours a typed "+".
   */
  ghost predicate Documented(h: SignHelpers)
  {
    && (forall text :: h.attachPositiveSign(text) ==
          if HasPositiveSign(text) then text else "+" + text)
    && (forall text :: h.stripPositiveSign(text) ==
          if HasPositiveSign(text) then text[1..] else text)
    && (forall text :: !HasPositiveSign(text) && !HasNegativeSign(text) ==>
          h.defaultToNegativeNumber(text) == "-" + text)
    && (forall text :: HasPositiveSign(text) ==>
          h.defaultToNegativeNumber(text) == text[1..])
  }

  /**
   * A gain editor. Its range and default go to the numeric editor base; the
   * preference for negative gain is fixed at construction, and neither text
   * operation changes anything.
   */
  datatype GainEditor = GainEditor(
    gainMinimumDb: real,
    gainMaximumDb: real,
    gainDefaultDb: real,
    defaultToNegativeGain: bool,
    helpers: SignHelpers)
  {
    /**
     * The text shown for a saved value: with negative gain as the default,
     * a positive value needs its "+" put back; zero never gets one.
     */
    function DecoratedText(savedValue: real, savedText: string): (text: string)
      ensures !(defaultToNegativeGain && savedValue > 0.0) ==> text == savedText
      ensures text == savedText || text == helpers.attachPositiveSign(savedText)
      ensures Documented(helpers) ==>
                (HasPositiveSign(text) <==>
                   HasPositiveSign(savedText) || (defaultToNegativeGain && savedValue > 0.0))
    {
      if defaultToNegativeGain && savedValue > 0.0
      then helpers.attachPositiveSign(savedText)
      else savedText
    }

    /** The typed text, made parseable: a "+" is stripped, or a "-" implied. */
    function UndecoratedText(savedText: string): (text: string)
      ensures Documented(helpers) && HasPositiveSign(savedText) ==> text == savedText[1..]
      ensures Documented(helpers) && !HasPositiveSign(savedText) && !defaultToNegativeGain ==>
                text == savedText
    {
      if defaultToNegativeGain
      then helpers.defaultToNegativeNumber(savedText)
      else helpers.stripPositiveSign(savedText)
    }
  }

  /**
   * Decoration leaves the text alone unless negative gain is the default and
   * the value is strictly positive; then the text carries exactly one "+".
   */
  lemma DecorationPolicy(editor: GainEditor, savedValue: real, savedText: string)
    requires Documented(editor.helpers)
    ensures !(editor.defaultToNegativeGain && savedValue > 0.0) ==>
              editor.DecoratedText(savedValue, savedText) == savedText
    ensures editor.defaultToNegativeGain && savedValue > 0.0 ==>
              editor.DecoratedText(savedValue, savedText) ==
                (if HasPositiveSign(savedText) then savedText else "+" + savedText)
    ensures HasPositiveSign(editor.DecoratedText(savedValue, savedText)) <==>
              HasPositiveSign(savedText) || (editor.defaultToNegativeGain && savedValue > 0.0)
  {
  }

  /** Zero gain is never decorated, whatever the preference. */
  lemma ZeroIsNeverDecorated(editor: GainEditor, savedText: string)
    ensures editor.DecoratedText(0.0, savedText) == savedText
  {
  }

  /** Decorating decorated text changes nothing more. */
  lemma DecorationIdempotent(editor: GainEditor, savedValue: real, savedText: string)
    requires Documented(editor.helpers)
    ensures editor.DecoratedText(savedValue, editor.DecoratedText(savedValue, savedText)) ==
            editor.DecoratedText(savedValue, savedText)
  {
  }

  /**
   * An explicitly typed "+" is always removed before parsing; otherwise the
   * text is kept, with a "-" implied when negative gain is the default.
   */
  lemma UndecorationPolicy(editor: GainEditor, savedText: string)
    requires Documented(editor.helpers)
    ensures HasPositiveSign(savedText) ==> editor.UndecoratedText(savedText) == savedText[1..]
    ensures !HasPositiveSign(savedText) && !editor.defaultToNegativeGain ==>
              editor.UndecoratedText(savedText) == savedText
    ensures !HasPositiveSign(savedText) && !HasNegativeSign(savedText) && editor.defaultToNegativeGain ==>
              editor.UndecoratedText(savedText) == "-" + savedText
  {
  }

  /**
   * Displayed text reads back as it was formatted: unsigned text of a
   * positive value with negative gain as the default, and text without a
   * "+" when positive gain is the default.
   */
  lemma DecorationRoundTrip(editor: GainEditor, savedValue: real, savedText: string)
    requires Documented(editor.helpers)
    requires !HasPositiveSign(savedText)
    requires editor.defaultToNegativeGain ==> savedValue > 0.0 && !HasNegativeSign(savedText)
    ensures editor.UndecoratedText(editor.DecoratedText(savedValue, savedText)) == savedText
  {
  }
}
