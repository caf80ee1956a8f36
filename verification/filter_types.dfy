/**
 * The filter enumerations of the external signal-processing library, as far
 * as the selectors and label factory use them. They are identifiers here;
 * their presentation strings belong to the library and are not modelled.
 */
module FilterTypes {

  /** The electronic filter family a control is built for. */
  datatype ElectronicFilterType =
    | HighLowPassFilter
    | HighPassFilter
    | LowPassFilter
      /** Any other constant of the library's enumeration. */
    | OtherFilter(name: string)

  /** Butterworth orders the library enumerates (first to eighth). */
  type ButterworthOrder = k: int | 1 <= k <= 8 witness 1

  /** Linkwitz-Riley orders the library enumerates (second and fourth). */
  type LinkwitzRileyOrder = k: int | k == 2 || k == 4 witness 2

  /** One topology of a high or low pass filter stage. */
  datatype HighLowPassFilterType =
    | LowPass
    | SecondOrderHighPass
    | EllipticalHighPass
    | ButterworthHighPass(bwOrder: ButterworthOrder)
    | ButterworthLowPass(bwOrder: ButterworthOrder)
    | LinkwitzRileyHighPass(lrOrder: LinkwitzRileyOrder)
    | LinkwitzRileyLowPass(lrOrder: LinkwitzRileyOrder)
  {
    /** The topology attenuates below its corner frequency. */
    predicate IsHighPass() {
      SecondOrderHighPass? || EllipticalHighPass? || ButterworthHighPass? || LinkwitzRileyHighPass?
    }

    /** The topology attenuates above its corner frequency. */
    predicate IsLowPass() {
      LowPass? || ButterworthLowPass? || LinkwitzRileyLowPass?
    }

    predicate IsButterworth() {
      ButterworthHighPass? || ButterworthLowPass?
    }
  }
}
