# fxsigproc value-domain model

A Dafny model of the value-domain logic inside the fxsigproc JavaFX controls
for audio signal-processing parameters:

- the **high/low pass filter type selector**, which builds the drop-list of
  filter topologies for a filter family (high/low pass, high pass, low pass),
  optionally with the eighth-order Butterworth, and installs it with the
  family's default topology (`HighLowPassFilterTypeSelection`);
- the **Butterworth filter slope selector**, which labels an array of filter
  orders position by position and picks the default label by index, with an
  index error that its constructor catches (`ButterworthFilterSlopes`);
- the **gain editor's sign policy**: when displayed gain text gets a "+",
  and how typed text is made parseable (`Gain`);
- the **frequency editor's dual-mode precision**: whole hertz at and above a
  cutoff frequency, a number of decimal places below it, with setters for
  both settings (`Frequency`);
- the **frequency editor table cell**, whose inner editor is made before the
  cell's own precision fields are set and is then brought in line with them
  (`FrequencyCell`);
- the **label factory**'s constant labels and per-family slope tooltip
  (`SigprocLabels`).

`FilterTypes` holds the filter enumerations of the external signal-processing
library as datatypes, and `Wrappers` an `Option` for Java's nullable results.

The catalog is characterised twice: by the table `FilterTypeList` that the
selector's method is proved to build, and independently by the predicate
`Offered` (which topologies a family offers) together with a display rank.
`FilterTypeListCharacterised` proves that these two determine the list.

External functions become parameters. These are the library's Butterworth
slope label lookup, the three string sign helpers and the two rounding
primitives. The sign helpers are constrained only by what the gain editor's
comments say of them (`Gain.Documented`).

Three behaviours of the code that the model keeps as written:

- A family other than the three known ones yields an empty list and no
  default. It is not treated as a fatal error.
- The Linkwitz-Riley pair is always appended. So a high pass list has 8 or 9
  entries and a low pass list has 7 or 8.
- A value exactly at the precision cutoff is rounded to a whole number.

## Model

| member | source | states |
|---|---|---|
| `HighLowPassFilterTypeSelection.HighLowPassFilterTypeSelector.constructor` | src/main/java/com/mhschmieder/fxsigprocgui/control/HighLowPassFilterTypeSelector.java:60-72 | caches the filter family and installs that family's drop-list and default |
| `HighLowPassFilterTypeSelection.HighLowPassFilterTypeSelector.UpdateFilterTypes` | src/main/java/com/mhschmieder/fxsigprocgui/control/HighLowPassFilterTypeSelector.java:75-170 | the list built by successive appends is exactly the family's catalog entry, installed together with the family's default |
| `HighLowPassFilterTypeSelection.HighLowPassFilterTypeSelector.UpdateValues` | src/main/java/com/mhschmieder/fxsigprocgui/control/HighLowPassFilterTypeSelector.java:168-169 | the whole list and the default are replaced together; nothing of the old list survives |
| `HighLowPassFilterTypeSelection.FilterTypeList` | src/main/java/com/mhschmieder/fxsigprocgui/control/HighLowPassFilterTypeSelector.java:79-150 | the drop-list of a family, in display order; empty exactly for a family other than the three known ones, and every entry is a topology the family offers |
| `HighLowPassFilterTypeSelection.DefaultFilterType` | src/main/java/com/mhschmieder/fxsigprocgui/control/HighLowPassFilterTypeSelector.java:43-55 | a default exists exactly for the three known families, and it is a topology the family offers even without the high orders |
| `HighLowPassFilterTypeSelection.FilterTypeListOrdered` | src/main/java/com/mhschmieder/fxsigprocgui/control/HighLowPassFilterTypeSelector.java:79-150 | every drop-list is strictly in display order, hence free of duplicates |
| `HighLowPassFilterTypeSelection.FilterTypeListMembership` | src/main/java/com/mhschmieder/fxsigprocgui/control/HighLowPassFilterTypeSelector.java:79-150 | a topology is listed if and only if the family offers it: high (low) pass topologies for a high (low) pass family, Butterworth 5–7 never, Butterworth 8 only on request |
| `HighLowPassFilterTypeSelection.StrictlyRankedUnique` | src/main/java/com/mhschmieder/fxsigprocgui/control/HighLowPassFilterTypeSelector.java:79-150 | two display-ordered lists with the same members are equal |
| `HighLowPassFilterTypeSelection.FilterTypeListCharacterised` | src/main/java/com/mhschmieder/fxsigprocgui/control/HighLowPassFilterTypeSelector.java:79-150 | any display-ordered list holding exactly the offered topologies is the drop-list, so order and membership fix it |
| `HighLowPassFilterTypeSelection.FilterTypeListCounts` | src/main/java/com/mhschmieder/fxsigprocgui/control/HighLowPassFilterTypeSelector.java:80-150 | high/low pass always gives 3 entries; high pass 8, or 9 with the high orders; low pass 7, or 8 with them; any other family none |
| `HighLowPassFilterTypeSelection.HighOrderFlagAddsButterworth8` | src/main/java/com/mhschmieder/fxsigprocgui/control/HighLowPassFilterTypeSelector.java:100-117 | the flag inserts the eighth-order Butterworth of the family just before the Linkwitz-Riley pair and leaves the rest and its order unchanged; for other families it changes nothing |
| `HighLowPassFilterTypeSelection.NoIntermediateButterworthOrders` | src/main/java/com/mhschmieder/fxsigprocgui/control/HighLowPassFilterTypeSelector.java:100-113 | a listed Butterworth topology has order at most 4, or order 8 with the flag set |
| `HighLowPassFilterTypeSelection.DefaultIsFirstListed` | src/main/java/com/mhschmieder/fxsigprocgui/control/HighLowPassFilterTypeSelector.java:43-55 | the default is the first entry of the family's list, hence a member (low pass for high/low pass and low pass, second-order high pass for high pass); an unknown family gets an empty list and no default |
| `ButterworthFilterSlopes.SlopeLabels` | src/main/java/com/mhschmieder/fxsigproccontrols/control/ButterworthFilterSlopeSelector.java:87-92 | one label per filter order: as many labels as orders |
| `ButterworthFilterSlopes.SlopeLabelAt` | src/main/java/com/mhschmieder/fxsigproccontrols/control/ButterworthFilterSlopeSelector.java:88-92 | the i-th label is the label of the i-th order, so the input order is kept |
| `ButterworthFilterSlopes.SlopeLabelsConcat` | src/main/java/com/mhschmieder/fxsigproccontrols/control/ButterworthFilterSlopeSelector.java:88-92 | labelling two order lists one after the other gives the concatenation of their labels |
| `ButterworthFilterSlopes.DefaultSlopeListed` | src/main/java/com/mhschmieder/fxsigproccontrols/control/ButterworthFilterSlopeSelector.java:94-96 | the default picked by a valid index is one of the listed labels |
| `ButterworthFilterSlopes.ButterworthFilterSlopeSelector.constructor` | src/main/java/com/mhschmieder/fxsigproccontrols/control/ButterworthFilterSlopeSelector.java:41-55 | construction completes whatever the index: a valid index installs the labels and default, an invalid one is caught and leaves the list empty; grouping is off and 25 rows are visible either way |
| `ButterworthFilterSlopes.ButterworthFilterSlopeSelector.InitComboBox` | src/main/java/com/mhschmieder/fxsigproccontrols/control/ButterworthFilterSlopeSelector.java:61-73 | turns number grouping off, shows 25 rows, then sets the slopes with the same outcome as SetFilterSlopes, so the index error leaves the list, the default and the current value unchanged |
| `ButterworthFilterSlopes.ButterworthFilterSlopeSelector.SetFilterSlopes` | src/main/java/com/mhschmieder/fxsigproccontrols/control/ButterworthFilterSlopeSelector.java:81-100 | succeeds exactly when the default index is inside the array; then the list is the fresh label list of the orders and the default is the label at that index; on the index error the list, the default and the current value are all unchanged |
| `ButterworthFilterSlopes.ButterworthFilterSlopeSelector.UpdateValues` | src/main/java/com/mhschmieder/fxsigproccontrols/control/ButterworthFilterSlopeSelector.java:98-99 | the whole list and the default are replaced together |
| `ButterworthFilterSlopes.ButterworthFilterSlopeSelector.GetFilterSlope` | src/main/java/com/mhschmieder/fxsigproccontrols/control/ButterworthFilterSlopeSelector.java:57-59 | returns the selector's current value |
| `ButterworthFilterSlopes.ButterworthFilterSlopeSelector.SetFilterSlope` | src/main/java/com/mhschmieder/fxsigproccontrols/control/ButterworthFilterSlopeSelector.java:75-77 | makes the given label the current value and touches nothing else |
| `Gain.GainEditor.DecoratedText` | src/main/java/com/mhschmieder/fxsigproc/control/GainEditor.java:71-86 | text is left alone unless negative gain is the default and the value is strictly positive, otherwise it is the text with a positive sign attached; with documented helpers the result has a leading "+" exactly when the input had one or that case applies |
| `Gain.GainEditor.UndecoratedText` | src/main/java/com/mhschmieder/fxsigproc/control/GainEditor.java:88-101 | with documented helpers a typed "+" is stripped in both modes, and unsigned text is kept when positive gain is the default |
| `Gain.DecorationPolicy` | src/main/java/com/mhschmieder/fxsigproc/control/GainEditor.java:71-86 | text is unchanged unless negative gain is the default and the value is strictly positive; then it carries a "+" added only if absent; the result has a leading "+" exactly when the input had one or that case applies |
| `Gain.ZeroIsNeverDecorated` | src/main/java/com/mhschmieder/fxsigproc/control/GainEditor.java:79-83 | a zero value never gets a "+" |
| `Gain.DecorationIdempotent` | src/main/java/com/mhschmieder/fxsigproc/control/GainEditor.java:77-83 | decorating already decorated text changes nothing |
| `Gain.UndecorationPolicy` | src/main/java/com/mhschmieder/fxsigproc/control/GainEditor.java:88-101 | a typed "+" is removed in both modes; unsigned text is kept when positive gain is the default and gets a "-" when negative gain is |
| `Gain.DecorationRoundTrip` | src/main/java/com/mhschmieder/fxsigproc/control/GainEditor.java:71-101 | undecorating decorated text gives back the unsigned text of a positive value under negative default, and any text without "+" under positive default |
| `Frequency.PrecisionAdjusted` | src/main/java/com/mhschmieder/fxsigprocgui/control/FrequencyEditor.java:104-111 | at or above the cutoff, the cutoff included, the value is rounded to a whole number; below it, to the given decimal places |
| `Frequency.RaisingCutoffSwitchesRule` | src/main/java/com/mhschmieder/fxsigprocgui/control/FrequencyEditor.java:104-119 | raising the cutoff from at or below a value to above it switches that value from whole-number to decimal rounding, so a later cutoff change alters the adjustment |
| `Frequency.FrequencyEditor.AdjustPrecision` | src/main/java/com/mhschmieder/fxsigprocgui/control/FrequencyEditor.java:104-111 | reads the editor's current settings: a whole number at or above its cutoff, its decimal places below it |
| `Frequency.FrequencyEditor.GetPrecisionCutoffFrequencyHz` | src/main/java/com/mhschmieder/fxsigprocgui/control/FrequencyEditor.java:113-115 | returns the stored cutoff, which the setter reads back |
| `Frequency.FrequencyEditor.GetNumberOfDecimalPlaces` | src/main/java/com/mhschmieder/fxsigprocgui/control/FrequencyEditor.java:121-123 | returns the stored decimal places, which the setter reads back |
| `Frequency.FrequencyEditor.WithDefaultPrecision` | src/main/java/com/mhschmieder/fxsigprocgui/control/FrequencyEditor.java:60-74 | same state as the full constructor with cutoff 100.0 Hz and 1 decimal place, increment 10 Hz |
| `Frequency.FrequencyEditor.constructor` | src/main/java/com/mhschmieder/fxsigprocgui/control/FrequencyEditor.java:76-102 | stores exactly the given range, initial value, cutoff and decimal places, with the 10 Hz increment |
| `Frequency.FrequencyEditor.SetPrecisionCutoffFrequencyHz` | src/main/java/com/mhschmieder/fxsigprocgui/control/FrequencyEditor.java:113-119 | the getter reads back the cutoff just set; the decimal places are unchanged |
| `Frequency.FrequencyEditor.SetNumberOfDecimalPlaces` | src/main/java/com/mhschmieder/fxsigprocgui/control/FrequencyEditor.java:121-127 | the getter reads back the decimal places just set; the cutoff is unchanged |
| `FrequencyCell.FrequencyEditorTableCell.WithDefaults` | src/main/java/com/mhschmieder/fxsigproc/control/cell/FrequencyEditorTableCell.java:61-64 | no uneditable rows, cutoff 100.0 Hz and 1 decimal place, forwarded to the inner editor |
| `FrequencyCell.FrequencyEditorTableCell.WithRows` | src/main/java/com/mhschmieder/fxsigproc/control/cell/FrequencyEditorTableCell.java:66-74 | the given rows with cutoff 100.0 Hz and 1 decimal place, forwarded to the inner editor |
| `FrequencyCell.FrequencyEditorTableCell.constructor` | src/main/java/com/mhschmieder/fxsigproc/control/cell/FrequencyEditorTableCell.java:76-98 | the inner editor is made with the zero-initialised settings, then the cell stores the given cutoff and decimal places and forwards them, so cell and editor agree; the unit is " Hz" |
| `FrequencyCell.FrequencyEditorTableCell.MakeTextField` | src/main/java/com/mhschmieder/fxsigproc/control/cell/FrequencyEditorTableCell.java:109-128 | a fresh editor over 0 to 200000 Hz starting at 0, unit " Hz", error text "N/A", with the precision settings handed to it |
| `FrequencyCell.FrequencyEditorTableCell.ForwardPrecision` | src/main/java/com/mhschmieder/fxsigproc/control/cell/FrequencyEditorTableCell.java:89-94 | afterwards the inner editor's cutoff and decimal places equal the cell's, its other settings untouched |
| `FrequencyCell.FrequencyEditorTableCell.AdjustPrecision` | src/main/java/com/mhschmieder/fxsigproc/control/cell/FrequencyEditorTableCell.java:130-136 | reads the cell's own settings: a whole number at or above its cutoff, its decimal places below it |
| `FrequencyCell.CellMatchesEditor` | src/main/java/com/mhschmieder/fxsigproc/control/cell/FrequencyEditorTableCell.java:130-136 | once the settings are forwarded, the cell and its editor adjust every value alike |
| `SigprocLabels.BandwidthLabel` | src/main/java/com/mhschmieder/fxsigproccontrols/util/SigprocLabelFactory.java:40-42 | the constant label "Bandwidth" |
| `SigprocLabels.DelayLabel` | src/main/java/com/mhschmieder/fxsigproccontrols/util/SigprocLabelFactory.java:44-46 | the constant label "Delay" |
| `SigprocLabels.FrequencyLabel` | src/main/java/com/mhschmieder/fxsigproccontrols/util/SigprocLabelFactory.java:48-50 | the constant label "Frequency" |
| `SigprocLabels.GainLabel` | src/main/java/com/mhschmieder/fxsigproccontrols/util/SigprocLabelFactory.java:52-54 | the constant label "Gain" |
| `SigprocLabels.MuteLabel` | src/main/java/com/mhschmieder/fxsigproccontrols/util/SigprocLabelFactory.java:56-58 | the constant label "Mute" |
| `SigprocLabels.PolarityLabel` | src/main/java/com/mhschmieder/fxsigproccontrols/util/SigprocLabelFactory.java:60-62 | the constant label "Polarity" |
| `SigprocLabels.QFactorLabel` | src/main/java/com/mhschmieder/fxsigproccontrols/util/SigprocLabelFactory.java:64-66 | the constant label "Q" |
| `SigprocLabels.SlopeLabel` | src/main/java/com/mhschmieder/fxsigproccontrols/util/SigprocLabelFactory.java:68-70 | the constant label "Slope" |
| `SigprocLabels.EqualizationLabel` | src/main/java/com/mhschmieder/fxsigproccontrols/util/SigprocLabelFactory.java:72-74 | the constant label "Equalization" |
| `SigprocLabels.EqualizationLabelAbbreviated` | src/main/java/com/mhschmieder/fxsigproccontrols/util/SigprocLabelFactory.java:76-78 | the constant label "EQ", the abbreviation of "Equalization" |
| `SigprocLabels.ParametricLabel` | src/main/java/com/mhschmieder/fxsigproccontrols/util/SigprocLabelFactory.java:80-82 | the constant label "Parametric" |
| `SigprocLabels.HighLowPassFilterSlopeTooltip` | src/main/java/com/mhschmieder/fxsigproccontrols/util/SigprocLabelFactory.java:84-95 | the tooltip is empty exactly for a family other than the three known ones |
| `SigprocLabels.HighLowPassLabel` | src/main/java/com/mhschmieder/fxsigproccontrols/util/SigprocLabelFactory.java:97-99 | the combined high/low pass family label, which followed by " Filter Slope" is that family's slope tooltip |
| `SigprocLabels.HighPassLabel` | src/main/java/com/mhschmieder/fxsigproccontrols/util/SigprocLabelFactory.java:101-103 | the high pass family label, which followed by " Filter Slope" is that family's slope tooltip |
| `SigprocLabels.LowPassLabel` | src/main/java/com/mhschmieder/fxsigproccontrols/util/SigprocLabelFactory.java:105-107 | the low pass family label, which followed by " Filter Slope" is that family's slope tooltip |
| `SigprocLabels.TooltipIsFamilyLabelPlusSlope` | src/main/java/com/mhschmieder/fxsigproccontrols/util/SigprocLabelFactory.java:84-107 | each known family's slope tooltip is its family label plus " Filter Slope"; any other family gets the empty string |
| `SigprocLabels.TooltipsDistinguishFamilies` | src/main/java/com/mhschmieder/fxsigproccontrols/util/SigprocLabelFactory.java:84-95 | two families with the same non-empty tooltip are the same family |

## Left out

- Widget construction, layout, CSS, tooltips on toggle buttons and property
  bindings of the filter controls and labelled control factories: UI plumbing.
- The numeric editor base: parsing, clamping to range, arrow-key stepping and
  the parse-error fallback. It is external; the model records the settings the
  editors hand to it, and assumes the base starts with an empty measurement
  unit and an empty error text. `Frequency.FrequencyEditor.SetMeasurementUnitString`
  and `Frequency.FrequencyEditor.SetErrorText` stand for the base's setters of
  those two settings.
- The selector bases' re-assertion of the current selection in `updateValues`.
  It is external, so the model records the list and the default handed to it.
  What the slope selector's current value is after a list replacement is left
  unspecified: the methods that replace the list may change it.
- `ButterworthFilterSlopes.ButterworthFilterSlopeSelector.constructor`: the
  state before `initComboBox` is the external base's; the model starts from an
  empty list, grouping on and 10 visible rows.
- Presentation strings of the filter topologies: the list holds the
  library's enumeration constants, not their display text.
- Floating point. Frequencies and gains are reals, so NaN and infinities are
  not modelled. The two rounding primitives are uninterpreted parameters.
  Whole-number rounding returns an unbounded integer; the 64-bit range of the
  Java long it returns is not modelled.
- `Gain.Documented`: what `defaultToNegativeNumber` does with text that
  already starts with "-" is left open, because the calling code says nothing
  about it.
- The gain editor's display and parse decimal places (1 and 4) go to the
  numeric editor base and are not modelled; its range is kept as fields.
- The frequency editor's display and parse decimal places (1 and 4, handed to
  the numeric editor base) are not recorded either.
- A null filter family, which makes the switches of the filter type selector
  and of the slope tooltip throw a null pointer exception. Families are
  datatype values in the model and are never null.
- A null order array in `setFilterSlopes` is not modelled. The array is
  non-null in the model.
- The control factory method that builds the cell's inner editor is modelled
  only inside `MakeTextField`. The table cell's editor type comes from a
  package that is not part of this model; the modelled `FrequencyEditor`
  stands for it.
- `ClientProperties`, locale, and the exception's stack trace printout.
