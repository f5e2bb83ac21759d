/** What the calculator window shows: the two font tiers, the 11-character
    view of the current expression, and the two display labels. */
module Presentation {
  import opened Expression

  datatype Weight = Normal | Bold

  datatype Font = Font(family: string, size: nat, weight: Weight)

  const LargeFontStyle: Font := Font("Arial", 40, Bold)
  const SmallFontStyle: Font := Font("Arial", 20, Normal)
  const DigitsFontStyleLarge: Font := Font("Arial", 24, Bold)
  const DigitsFontStyleSmall: Font := Font("Arial", 16, Bold)
  const DefaultFontStyleLarge: Font := Font("Arial", 20, Normal)
  const DefaultFontStyleSmall: Font := Font("Arial", 12, Normal)

  /** The fonts of one tier: the current-expression label, the digit buttons,
      and the operator, clear and equals buttons. */
  datatype FontSet = FontSet(display: Font, digits: Font, controls: Font)

  const SmallFonts: FontSet := FontSet(SmallFontStyle, DigitsFontStyleSmall, DefaultFontStyleSmall)
  const LargeFonts: FontSet := FontSet(LargeFontStyle, DigitsFontStyleLarge, DefaultFontStyleLarge)

  /** get_fonts: the small set exactly when the selected size is "Small",
      the large set for any other value. */
  function GetFonts(fontSize: string): (fonts: FontSet)
    ensures fonts == SmallFonts <==> fontSize == "Small"
    ensures fonts != SmallFonts ==> fonts == LargeFonts
  {
    if fontSize == "Small" then SmallFonts else LargeFonts
  }

  /** Every font of the small tier is smaller than its large counterpart. */
  lemma SmallTierIsSmaller()
    ensures SmallFonts.display.size < LargeFonts.display.size
    ensures SmallFonts.digits.size < LargeFonts.digits.size
    ensures SmallFonts.controls.size < LargeFonts.controls.size
  {
  }

  /** How many characters of the current expression the display shows. */
  const DisplayWidth: nat := 11

  /** The slice current_expression[:11]: the first min(11, |current|) characters. */
  function Display(current: string): (shown: string)
    ensures |shown| == if |current| < DisplayWidth then |current| else DisplayWidth
    ensures shown <= current
  {
    if |current| <= DisplayWidth then current else current[..DisplayWidth]
  }

  /** A current expression of at most 11 characters is shown whole, and only then. */
  lemma DisplayWholeIff(current: string)
    ensures Display(current) == current <==> |current| <= DisplayWidth
  {
  }

  /** Showing what is shown changes nothing. */
  lemma DisplayIdempotent(current: string)
    ensures Display(Display(current)) == Display(current)
  {
  }

  /** Fourteen digits show as their first eleven. */
  lemma DisplayFourteenDigits()
    ensures Display("12345678901234") == "12345678901"
  {
  }

  datatype Label = Label(text: string, font: Font)

  /** The total-expression label above the current-expression label. */
  datatype DisplayLabels = DisplayLabels(total: Label, current: Label)

  /** The labels as update_total_label and update_label leave them: total
      verbatim in the fixed small font, current cut to 11 characters in the
      display font of the selected tier. */
  function Shown(s: ExprState, fontSize: string): (labels: DisplayLabels)
    ensures labels.total.text == s.total && labels.total.font == SmallFontStyle
    ensures labels.current.text <= s.current && |labels.current.text| <= DisplayWidth
    ensures labels.current.font == GetFonts(fontSize).display
  {
    DisplayLabels(Label(s.total, SmallFontStyle), Label(Display(s.current), GetFonts(fontSize).display))
  }

  /** The text on both labels depends on the expressions alone, not on the
      font tier; only the current label's font changes with the tier. */
  lemma ShownTextIgnoresTier(s: ExprState, tier1: string, tier2: string)
    ensures Shown(s, tier1).total == Shown(s, tier2).total
    ensures Shown(s, tier1).current.text == Shown(s, tier2).current.text
    ensures Shown(s, tier1).current.text == Display(s.current)
  {
  }

  /** create_display_labels as written: on a rebuild the current label gets
      the whole current expression, not its first 11 characters. */
  function RebuiltLabelsAsWritten(s: ExprState, fontSize: string): (labels: DisplayLabels)
    ensures labels.total == Shown(s, fontSize).total
    ensures labels.current.font == Shown(s, fontSize).current.font
    ensures labels.current.text == s.current
  {
    DisplayLabels(Label(s.total, SmallFontStyle), Label(s.current, GetFonts(fontSize).display))
  }

  /** The rebuilt labels agree with what the window showed before exactly when
      the current expression fits in 11 characters. */
  lemma RebuildAsWrittenAgreesIff(s: ExprState, fontSize: string)
    ensures RebuiltLabelsAsWritten(s, fontSize) == Shown(s, fontSize) <==> |s.current| <= DisplayWidth
  {
  }

  /** With 14 digits typed, choosing "Small" makes the label show all 14
      instead of the 11 it showed before. */
  lemma RebuildAsWrittenShowsUntruncated()
    ensures var s := ExprState("", "12345678901234");
            RebuiltLabelsAsWritten(s, "Small").current.text == "12345678901234" &&
            Shown(s, "Small").current.text == "12345678901" &&
            RebuiltLabelsAsWritten(s, "Small") != Shown(s, "Small")
  {
  }
}
