/**
 * The frequency editor's dual-mode precision: whole hertz at and above a
 * cutoff frequency, a number of decimal places below it.
 */
module Frequency {

  /** A Java int. */
  type Int32 = x: int | -0x8000_0000 <= x < 0x8000_0000

  // Increment for the up and down arrow keys, in Hz.
  const ValueIncrementDefaultHz: real := 10.0
  // Default precision cutoff frequency, in Hz.
  const PrecisionCutoffFrequencyDefaultHz: real := 100.0
  // Default number of decimal places below the cutoff.
  const NumberOfDecimalPlacesDefault: Int32 := 1

  /**
   * The two rounding primitives of the math libraries, which are not part of
   * this model: rounding to the nearest whole number (whose result is a Java
   * long), and rounding to a number of decimal places.
   */
  datatype Rounding = Rounding(round: real -> int, roundDecimal: (real, Int32) -> real)

  ghost predicate IsWhole(x: real) {
    x == x.Floor as real
  }

  /**
   * The precision rule shared by the editor and its table cell: at or above
   * the cutoff (the cutoff itself included) the value is rounded to a whole
   * number; below it, to the configured decimal places.
   */
  function PrecisionAdjusted(cutoffHz: real, decimalPlaces: Int32, rounding: Rounding, value: real): (adjusted: real)
    ensures value >= cutoffHz ==> IsWhole(adjusted) && adjusted == rounding.round(value) as real
    ensures value < cutoffHz ==> adjusted == rounding.roundDecimal(value, decimalPlaces)
  {
    if value >= cutoffHz then rounding.round(value) as real
    else rounding.roundDecimal(value, decimalPlaces)
  }

  /**
   * Moving the cutoff from at or below a value to above it switches that
   * value from whole-number rounding to decimal rounding, so a later change
   * of the cutoff alters how a value already shown is adjusted.
   */
  lemma RaisingCutoffSwitchesRule(oldCutoffHz: real, newCutoffHz: real, decimalPlaces: Int32,
                                  rounding: Rounding, value: real)
    requires oldCutoffHz <= value < newCutoffHz
    ensures PrecisionAdjusted(oldCutoffHz, decimalPlaces, rounding, value) == rounding.round(value) as real
    ensures PrecisionAdjusted(newCutoffHz, decimalPlaces, rounding, value) ==
            rounding.roundDecimal(value, decimalPlaces)
  {
  }

  /**
   * A frequency editor. The range, initial value and increment go to the
   * numeric editor base; the precision cutoff and decimal places are its own
   * state, which the setters change one at a time.
   */
  class FrequencyEditor {

    const initialText: string
    const tooltipText: string
    const frequencyMinimumHz: real
    const frequencyMaximumHz: real
    const frequencyInitialHz: real
    const valueIncrementHz: real

    // State of the numeric editor base that the callers set.
    var measurementUnit: string
    var errorText: string

    var precisionCutoffFrequencyHz: real
    var numberOfDecimalPlaces: Int32

    /** An editor with the default precision: whole hertz from 100 Hz up, one decimal place below. */
    constructor WithDefaultPrecision(initialText: string, tooltipText: string,
                                     frequencyMinimumHz: real, frequencyMaximumHz: real, frequencyInitialHz: real)
      ensures this.initialText == initialText && this.tooltipText == tooltipText
      ensures this.frequencyMinimumHz == frequencyMinimumHz && this.frequencyMaximumHz == frequencyMaximumHz
      ensures this.frequencyInitialHz == frequencyInitialHz && valueIncrementHz == ValueIncrementDefaultHz
      ensures measurementUnit == "" && errorText == ""
      ensures precisionCutoffFrequencyHz == PrecisionCutoffFrequencyDefaultHz
      ensures numberOfDecimalPlaces == NumberOfDecimalPlacesDefault
    {
      this.initialText := initialText;
      this.tooltipText := tooltipText;
      this.frequencyMinimumHz := frequencyMinimumHz;
      this.frequencyMaximumHz := frequencyMaximumHz;
      this.frequencyInitialHz := frequencyInitialHz;
      valueIncrementHz := ValueIncrementDefaultHz;
      measurementUnit := "";
      errorText := "";
      precisionCutoffFrequencyHz := PrecisionCutoffFrequencyDefaultHz;
      numberOfDecimalPlaces := NumberOfDecimalPlacesDefault;
    }

    /** An editor that stores exactly the precision settings it is given. */
    constructor (initialText: string, tooltipText: string,
                 frequencyMinimumHz: real, frequencyMaximumHz: real, frequencyInitialHz: real,
                 precisionCutoffFrequencyHz: real, numberOfDecimalPlaces: Int32)
      ensures this.initialText == initialText && this.tooltipText == tooltipText
      ensures this.frequencyMinimumHz == frequencyMinimumHz && this.frequencyMaximumHz == frequencyMaximumHz
      ensures this.frequencyInitialHz == frequencyInitialHz && valueIncrementHz == ValueIncrementDefaultHz
      ensures measurementUnit == "" && errorText == ""
      ensures this.precisionCutoffFrequencyHz == precisionCutoffFrequencyHz
      ensures this.numberOfDecimalPlaces == numberOfDecimalPlaces
    {
      this.initialText := initialText;
      this.tooltipText := tooltipText;
      this.frequencyMinimumHz := frequencyMinimumHz;
      this.frequencyMaximumHz := frequencyMaximumHz;
      this.frequencyInitialHz := frequencyInitialHz;
      valueIncrementHz := ValueIncrementDefaultHz;
      measurementUnit := "";
      errorText := "";
      this.precisionCutoffFrequencyHz := precisionCutoffFrequencyHz;
      this.numberOfDecimalPlaces := numberOfDecimalPlaces;
    }

    /** The value as displayed, by the precision rule over the current settings. */
    function AdjustPrecision(rounding: Rounding, value: real): (adjusted: real)
      reads this
      ensures value >= precisionCutoffFrequencyHz ==>
                IsWhole(adjusted) && adjusted == rounding.round(value) as real
      ensures value < precisionCutoffFrequencyHz ==>
                adjusted == rounding.roundDecimal(value, numberOfDecimalPlaces)
    {
      PrecisionAdjusted(precisionCutoffFrequencyHz, numberOfDecimalPlaces, rounding, value)
    }

    function GetPrecisionCutoffFrequencyHz(): (cutoffHz: real)
      reads this
      ensures cutoffHz == precisionCutoffFrequencyHz
    {
      precisionCutoffFrequencyHz
    }

    method SetPrecisionCutoffFrequencyHz(precisionCutoffFrequencyHz: real)
      modifies this`precisionCutoffFrequencyHz
      ensures GetPrecisionCutoffFrequencyHz() == precisionCutoffFrequencyHz
      ensures numberOfDecimalPlaces == old(numberOfDecimalPlaces)
    {
      this.precisionCutoffFrequencyHz := precisionCutoffFrequencyHz;
    }

    function GetNumberOfDecimalPlaces(): (decimalPlaces: Int32)
      reads this
      ensures decimalPlaces == numberOfDecimalPlaces
    {
      numberOfDecimalPlaces
    }

    method SetNumberOfDecimalPlaces(numberOfDecimalPlaces: Int32)
      modifies this`numberOfDecimalPlaces
      ensures GetNumberOfDecimalPlaces() == numberOfDecimalPlaces
      ensures precisionCutoffFrequencyHz == old(precisionCutoffFrequencyHz)
    {
      this.numberOfDecimalPlaces := numberOfDecimalPlaces;
    }

    method SetMeasurementUnitString(measurementUnit: string)
      modifies this`measurementUnit
      ensures this.measurementUnit == measurementUnit
    {
      this.measurementUnit := measurementUnit;
    }

    method SetErrorText(errorText: string)
      modifies this`errorText
      ensures this.errorText == errorText
    {
      this.errorText := errorText;
    }
  }

  /**
   * With the default precision, 63.27 Hz is rounded to one decimal place and
   * 1500.49 Hz to a whole number; raising the cutoff above 1500.49 Hz moves
   * that value to decimal rounding.
   */
  method FrequencyEditorScenario(rounding: Rounding)
  {
    var editor := new FrequencyEditor.WithDefaultPrecision("", "", 0.0, 20000.0, 1000.0);
    assert editor.AdjustPrecision(rounding, 63.27) == rounding.roundDecimal(63.27, 1);
    assert editor.AdjustPrecision(rounding, 1500.49) == rounding.round(1500.49) as real;
    assert editor.AdjustPrecision(rounding, 100.0) == rounding.round(100.0) as real;
    editor.SetPrecisionCutoffFrequencyHz(2000.0);
    assert editor.AdjustPrecision(rounding, 1500.49) == rounding.roundDecimal(1500.49, 1);
  }
}
