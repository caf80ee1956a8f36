/**
 * A table cell that edits a frequency through an inner frequency editor.
 * The editor is made by the cell base's constructor before the cell's own
 * precision fields are assigned, so the cell's constructor forwards them
 * to the editor afterwards.
 */
module FrequencyCell {

  import opened Wrappers
  import opened Frequency

  const CellMeasurementUnit: string := " Hz"

  /** The settings the cell gives its editor whatever its precision fields say. */
  ghost predicate CellEditorSettings(editor: FrequencyEditor)
    reads editor
  {
    && editor.initialText == "0.0"
    && editor.tooltipText == ""
    && editor.frequencyMinimumHz == 0.0
    && editor.frequencyMaximumHz == 200000.0
    && editor.frequencyInitialHz == 0.0
    && editor.measurementUnit == CellMeasurementUnit
    && editor.errorText == "N/A"
  }

  class FrequencyEditorTableCell {

    const uneditableRows: Option<seq<Int32>>
    const allowedToBeBlank: bool
    // The inner editor, made during the base constructor.
    const textField: FrequencyEditor
    // The precision settings the inner editor was made with.
    ghost const createdWithCutoffHz: real
    ghost const createdWithDecimalPlaces: Int32

    var precisionCutoffFrequencyHz: real
    var numberOfDecimalPlaces: Int32
    var measurementUnit: string

    /** The inner editor uses the cell's own precision settings. */
    ghost predicate Synchronized()
      reads this, textField
    {
      && textField.precisionCutoffFrequencyHz == precisionCutoffFrequencyHz
      && textField.numberOfDecimalPlaces == numberOfDecimalPlaces
    }

    /** A cell on every row, with the default precision. */
    constructor WithDefaults(allowedToBeBlank: bool)
      ensures uneditableRows == None && this.allowedToBeBlank == allowedToBeBlank
      ensures precisionCutoffFrequencyHz == PrecisionCutoffFrequencyDefaultHz
      ensures numberOfDecimalPlaces == NumberOfDecimalPlacesDefault
      ensures fresh(textField) && CellEditorSettings(textField) && Synchronized()
      ensures measurementUnit == CellMeasurementUnit
      ensures createdWithCutoffHz == 0.0 && createdWithDecimalPlaces == 0
    {
      uneditableRows := None;
      this.allowedToBeBlank := allowedToBeBlank;
      // Fields still hold their default-initialised values here.
      var editor := MakeTextField(0.0, 0);
      textField := editor;
      createdWithCutoffHz, createdWithDecimalPlaces := editor.precisionCutoffFrequencyHz, editor.numberOfDecimalPlaces;
      precisionCutoffFrequencyHz := PrecisionCutoffFrequencyDefaultHz;
      numberOfDecimalPlaces := NumberOfDecimalPlacesDefault;
      measurementUnit := "";
      new;
      ForwardPrecision();
      measurementUnit := CellMeasurementUnit;
    }

    /** A cell with the given uneditable rows, with the default precision. */
    constructor WithRows(uneditableRows: Option<seq<Int32>>, allowedToBeBlank: bool)
      ensures this.uneditableRows == uneditableRows && this.allowedToBeBlank == allowedToBeBlank
      ensures precisionCutoffFrequencyHz == PrecisionCutoffFrequencyDefaultHz
      ensures numberOfDecimalPlaces == NumberOfDecimalPlacesDefault
      ensures fresh(textField) && CellEditorSettings(textField) && Synchronized()
      ensures measurementUnit == CellMeasurementUnit
      ensures createdWithCutoffHz == 0.0 && createdWithDecimalPlaces == 0
    {
      this.uneditableRows := uneditableRows;
      this.allowedToBeBlank := allowedToBeBlank;
      var editor := MakeTextField(0.0, 0);
      textField := editor;
      createdWithCutoffHz, createdWithDecimalPlaces := editor.precisionCutoffFrequencyHz, editor.numberOfDecimalPlaces;
      precisionCutoffFrequencyHz := PrecisionCutoffFrequencyDefaultHz;
      numberOfDecimalPlaces := NumberOfDecimalPlacesDefault;
      measurementUnit := "";
      new;
      ForwardPrecision();
      measurementUnit := CellMeasurementUnit;
    }

    /** A cell with the given uneditable rows and precision settings. */
    constructor (uneditableRows: Option<seq<Int32>>, allowedToBeBlank: bool,
                 precisionCutoffFrequencyHz: real, numberOfDecimalPlaces: Int32)
      ensures this.uneditableRows == uneditableRows && this.allowedToBeBlank == allowedToBeBlank
      ensures this.precisionCutoffFrequencyHz == precisionCutoffFrequencyHz
      ensures this.numberOfDecimalPlaces == numberOfDecimalPlaces
      ensures fresh(textField) && CellEditorSettings(textField) && Synchronized()
      ensures measurementUnit == CellMeasurementUnit
      ensures createdWithCutoffHz == 0.0 && createdWithDecimalPlaces == 0
    {
      this.uneditableRows := uneditableRows;
      this.allowedToBeBlank := allowedToBeBlank;
      var editor := MakeTextField(0.0, 0);
      textField := editor;
      createdWithCutoffHz, createdWithDecimalPlaces := editor.precisionCutoffFrequencyHz, editor.numberOfDecimalPlaces;
      this.precisionCutoffFrequencyHz := precisionCutoffFrequencyHz;
      this.numberOfDecimalPlaces := numberOfDecimalPlaces;
      measurementUnit := "";
      new;
      ForwardPrecision();
      measurementUnit := CellMeasurementUnit;
    }

    /**
     * Makes the inner editor from the precision settings it is handed: a
     * range of 0 to 200000 Hz starting at 0, the unit " Hz", and "N/A" for
     * values that cannot be shown.
     */
    static method MakeTextField(precisionCutoffFrequencyHz: real, numberOfDecimalPlaces: Int32)
      returns (editor: FrequencyEditor)
      ensures fresh(editor) && CellEditorSettings(editor)
      ensures editor.precisionCutoffFrequencyHz == precisionCutoffFrequencyHz
      ensures editor.numberOfDecimalPlaces == numberOfDecimalPlaces
    {
      editor := new FrequencyEditor("0.0", "", 0.0, 200000.0, 0.0,
                                    precisionCutoffFrequencyHz, numberOfDecimalPlaces);
      editor.SetMeasurementUnitString(CellMeasurementUnit);
      editor.SetErrorText("N/A");
    }

    /** Pushes the cell's precision settings into the inner editor. */
    method ForwardPrecision()
      modifies textField`precisionCutoffFrequencyHz, textField`numberOfDecimalPlaces
      ensures Synchronized()
    {
      textField.SetPrecisionCutoffFrequencyHz(precisionCutoffFrequencyHz);
      textField.SetNumberOfDecimalPlaces(numberOfDecimalPlaces);
    }

    /** The value as displayed, by the precision rule over the cell's settings. */
    function AdjustPrecision(rounding: Rounding, value: real): (adjusted: real)
      reads this
      ensures value >= precisionCutoffFrequencyHz ==>
                IsWhole(adjusted) && adjusted == rounding.round(value) as real
      ensures value < precisionCutoffFrequencyHz ==>
                adjusted == rounding.roundDecimal(value, numberOfDecimalPlaces)
    {
      PrecisionAdjusted(precisionCutoffFrequencyHz, numberOfDecimalPlaces, rounding, value)
    }
  }

  /** Once its settings are forwarded, the cell and its editor round every value alike. */
  lemma CellMatchesEditor(cell: FrequencyEditorTableCell, rounding: Rounding, value: real)
    requires cell.Synchronized()
    ensures cell.AdjustPrecision(rounding, value) == cell.textField.AdjustPrecision(rounding, value)
  {
  }

  /** A default cell: its editor was made with zero settings and then corrected. */
  method FrequencyCellScenario(rounding: Rounding)
  {
    var cell := new FrequencyEditorTableCell.WithDefaults(false);
    assert cell.createdWithCutoffHz == 0.0;
    assert cell.textField.precisionCutoffFrequencyHz == 100.0;
    assert cell.textField.numberOfDecimalPlaces == 1;
    assert cell.AdjustPrecision(rounding, 100.0) == rounding.round(100.0) as real;
    assert cell.textField.AdjustPrecision(rounding, 99.95) == rounding.roundDecimal(99.95, 1);
  }
}
