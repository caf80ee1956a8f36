/** Fixed labels and tooltips of the signal-processing controls. */
module SigprocLabels {

  import opened FilterTypes

  function BandwidthLabel(): string { "Bandwidth" }
  function DelayLabel(): string { "Delay" }
  function FrequencyLabel(): string { "Frequency" }
  function GainLabel(): string { "Gain" }
  function MuteLabel(): string { "Mute" }
  function PolarityLabel(): string { "Polarity" }
  function QFactorLabel(): string { "Q" }
  function SlopeLabel(): string { "Slope" }
  function EqualizationLabel(): string { "Equalization" }
  function EqualizationLabelAbbreviated(): string { "EQ" }
  function ParametricLabel(): string { "Parametric" }

  /** The label of the combined family; its slope tooltip extends it. */
  function HighLowPassLabel(): (familyLabel: string)
    ensures familyLabel + " Filter Slope" == HighLowPassFilterSlopeTooltip(HighLowPassFilter)
  {
    "High/Low Pass"
  }

  /** The label of the high pass family; its slope tooltip extends it. */
  function HighPassLabel(): (familyLabel: string)
    ensures familyLabel + " Filter Slope" == HighLowPassFilterSlopeTooltip(HighPassFilter)
  {
    "High Pass"
  }

  /** The label of the low pass family; its slope tooltip extends it. */
  function LowPassLabel(): (familyLabel: string)
    ensures familyLabel + " Filter Slope" == HighLowPassFilterSlopeTooltip(LowPassFilter)
  {
    "Low Pass"
  }

  /** The slope tooltip for a filter family; empty for a family without one. */
  function HighLowPassFilterSlopeTooltip(filterType: ElectronicFilterType): (tooltip: string)
    ensures tooltip == "" <==> filterType.OtherFilter?
  {
    match filterType
    case HighLowPassFilter => "High/Low Pass Filter Slope"
    case HighPassFilter => "High Pass Filter Slope"
    case LowPassFilter => "Low Pass Filter Slope"
    case OtherFilter(_) => ""
  }

  /**
   * Each known family's slope tooltip is its family label followed by
   * " Filter Slope"; every other family has the empty tooltip.
   */
  lemma TooltipIsFamilyLabelPlusSlope(filterType: ElectronicFilterType)
    ensures filterType.HighLowPassFilter? ==>
              HighLowPassFilterSlopeTooltip(filterType) == HighLowPassLabel() + " Filter Slope"
    ensures filterType.HighPassFilter? ==>
              HighLowPassFilterSlopeTooltip(filterType) == HighPassLabel() + " Filter Slope"
    ensures filterType.LowPassFilter? ==>
              HighLowPassFilterSlopeTooltip(filterType) == LowPassLabel() + " Filter Slope"
    ensures filterType.OtherFilter? ==> HighLowPassFilterSlopeTooltip(filterType) == ""
  {
  }

  /**
   * The tooltip tells the known families apart: two families share a
   * non-empty tooltip only if they are the same family.
   */
  lemma TooltipsDistinguishFamilies(f1: ElectronicFilterType, f2: ElectronicFilterType)
    requires HighLowPassFilterSlopeTooltip(f1) == HighLowPassFilterSlopeTooltip(f2)
    requires HighLowPassFilterSlopeTooltip(f1) != ""
    ensures f1 == f2
  {
  }
}
