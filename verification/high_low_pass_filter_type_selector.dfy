/**
 * The drop-list of high/low pass filter topologies offered for one filter
 * family: which topologies, in which order, and which one is the default.
 */
module HighLowPassFilterTypeSelection {

  import opened Wrappers
  import opened FilterTypes

  // Default topology per family, for the best "out of box" experience.
  const HighLowPassFilterTypeDefault: HighLowPassFilterType := LowPass
  const HighPassFilterTypeDefault: HighLowPassFilterType := SecondOrderHighPass
  const LowPassFilterTypeDefault: HighLowPassFilterType := LowPass

  /**
   * The drop-list for a family, in display order. Of the Butterworth orders
   * above the fourth only the eighth is ever offered, and only on request;
   * the Linkwitz-Riley pair closes the list whatever the request.
   */
  function FilterTypeList(family: ElectronicFilterType, showHighOrderFilters: bool): (types: seq<HighLowPassFilterType>)
    ensures types == [] <==> family.OtherFilter?
    ensures forall t :: t in types ==> Offered(family, showHighOrderFilters, t)
  {
    match family
    case HighLowPassFilter =>
      [LowPass, SecondOrderHighPass, EllipticalHighPass]
    case HighPassFilter =>
      [SecondOrderHighPass, EllipticalHighPass,
       ButterworthHighPass(1), ButterworthHighPass(2), ButterworthHighPass(3), ButterworthHighPass(4)]
      + (if showHighOrderFilters then [ButterworthHighPass(8)] else [])
      + [LinkwitzRileyHighPass(2), LinkwitzRileyHighPass(4)]
    case LowPassFilter =>
      [LowPass,
       ButterworthLowPass(1), ButterworthLowPass(2), ButterworthLowPass(3), ButterworthLowPass(4)]
      + (if showHighOrderFilters then [ButterworthLowPass(8)] else [])
      + [LinkwitzRileyLowPass(2), LinkwitzRileyLowPass(4)]
    case OtherFilter(_) =>
      []
  }

  /** The default selection for a family; none for a family this selector does not know. */
  function DefaultFilterType(family: ElectronicFilterType): (choice: Option<HighLowPassFilterType>)
    ensures choice.Some? <==> !family.OtherFilter?
    ensures choice.Some? ==> Offered(family, false, choice.value)
  {
    match family
    case HighLowPassFilter => Some(HighLowPassFilterTypeDefault)
    case HighPassFilter => Some(HighPassFilterTypeDefault)
    case LowPassFilter => Some(LowPassFilterTypeDefault)
    case OtherFilter(_) => None
  }

  /**
   * Which topologies a family offers, stated without reference to order:
   * a high (low) pass family offers every high (low) pass topology except
   * the Butterworth orders five to seven, and the eighth only on request.
   */
  predicate Offered(family: ElectronicFilterType, showHighOrderFilters: bool, t: HighLowPassFilterType)
  {
    match family
    case HighLowPassFilter =>
      t == LowPass || t == SecondOrderHighPass || t == EllipticalHighPass
    case HighPassFilter =>
      t.IsHighPass() && (t.IsButterworth() ==> t.bwOrder <= 4 || (showHighOrderFilters && t.bwOrder == 8))
    case LowPassFilter =>
      t.IsLowPass() && (t.IsButterworth() ==> t.bwOrder <= 4 || (showHighOrderFilters && t.bwOrder == 8))
    case OtherFilter(_) =>
      false
  }

  /**
   * Display rank of a topology: the plain low pass first, then the classic
   * high pass designs, then Butterworth by order, then Linkwitz-Riley by order.
   */
  function Rank(t: HighLowPassFilterType): nat
  {
    match t
    case LowPass => 0
    case SecondOrderHighPass => 1
    case EllipticalHighPass => 2
    case ButterworthHighPass(k) => 2 + k
    case ButterworthLowPass(k) => 2 + k
    case LinkwitzRileyHighPass(k) => 10 + k / 2
    case LinkwitzRileyLowPass(k) => 10 + k / 2
  }

  ghost predicate StrictlyRanked(s: seq<HighLowPassFilterType>)
  {
    forall i, j :: 0 <= i < j < |s| ==> Rank(s[i]) < Rank(s[j])
  }

  /** Every drop-list is in display order, so in particular has no repeated entry. */
  lemma FilterTypeListOrdered(family: ElectronicFilterType, showHighOrderFilters: bool)
    ensures StrictlyRanked(FilterTypeList(family, showHighOrderFilters))
    ensures forall i, j :: 0 <= i < j < |FilterTypeList(family, showHighOrderFilters)| ==>
              FilterTypeList(family, showHighOrderFilters)[i] != FilterTypeList(family, showHighOrderFilters)[j]
  {
  }

  /** The drop-list holds exactly the topologies the family offers. */
  lemma FilterTypeListMembership(family: ElectronicFilterType, showHighOrderFilters: bool, t: HighLowPassFilterType)
    ensures t in FilterTypeList(family, showHighOrderFilters) <==> Offered(family, showHighOrderFilters, t)
  {
  }

  /** The head of a display-ordered list ranks strictly below every other member. */
  lemma HeadRanksFirst(s: seq<HighLowPassFilterType>, t: HighLowPassFilterType)
    requires StrictlyRanked(s) && t in s
    ensures Rank(s[0]) <= Rank(t)
    ensures t != s[0] <==> t in s[1..]
    ensures t != s[0] ==> Rank(s[0]) < Rank(t)
  {
  }

  lemma NonEmptyHasHead(s: seq<HighLowPassFilterType>)
    ensures s != [] ==> s[0] in s
  {
  }

  /** Two display-ordered lists with the same members are the same list. */
  lemma {:induction false} StrictlyRankedUnique(s: seq<HighLowPassFilterType>, u: seq<HighLowPassFilterType>)
    requires StrictlyRanked(s) && StrictlyRanked(u)
    requires forall t :: t in s <==> t in u
    ensures s == u
  {
    if s == [] || u == [] {
      NonEmptyHasHead(s);
      NonEmptyHasHead(u);
    } else {
      HeadRanksFirst(u, s[0]);
      HeadRanksFirst(s, u[0]);
      assert s[0] == u[0];
      forall t
        ensures t in s[1..] <==> t in u[1..]
      {
        if t in s {
          HeadRanksFirst(s, t);
          HeadRanksFirst(u, t);
        }
      }
      StrictlyRankedUnique(s[1..], u[1..]);
      assert s == [s[0]] + s[1..];
      assert u == [u[0]] + u[1..];
    }
  }

  /**
   * Order and membership determine the drop-list completely: any list that
   * is in display order and holds exactly the offered topologies is it.
   */
  lemma FilterTypeListCharacterised(family: ElectronicFilterType, showHighOrderFilters: bool,
                                    s: seq<HighLowPassFilterType>)
    requires StrictlyRanked(s)
    requires forall t :: t in s <==> Offered(family, showHighOrderFilters, t)
    ensures s == FilterTypeList(family, showHighOrderFilters)
  {
    var l := FilterTypeList(family, showHighOrderFilters);
    FilterTypeListOrdered(family, showHighOrderFilters);
    forall t ensures t in s <==> t in l {
      FilterTypeListMembership(family, showHighOrderFilters, t);
    }
    StrictlyRankedUnique(s, l);
  }

  /** Entry counts: the Linkwitz-Riley pair is there with or without the high orders. */
  lemma FilterTypeListCounts(showHighOrderFilters: bool)
    ensures |FilterTypeList(HighLowPassFilter, showHighOrderFilters)| == 3
    ensures |FilterTypeList(HighPassFilter, showHighOrderFilters)| == if showHighOrderFilters then 9 else 8
    ensures |FilterTypeList(LowPassFilter, showHighOrderFilters)| == if showHighOrderFilters then 8 else 7
    ensures forall name :: FilterTypeList(OtherFilter(name), showHighOrderFilters) == []
  {
  }

  /**
   * Asking for the high orders inserts the eighth-order Butterworth just
   * before the Linkwitz-Riley pair and changes nothing else.
   */
  lemma HighOrderFlagAddsButterworth8(family: ElectronicFilterType)
    ensures family.HighPassFilter? ==>
              var off := FilterTypeList(family, false);
              FilterTypeList(family, true) == off[..|off| - 2] + [ButterworthHighPass(8)] + off[|off| - 2..]
    ensures family.LowPassFilter? ==>
              var off := FilterTypeList(family, false);
              FilterTypeList(family, true) == off[..|off| - 2] + [ButterworthLowPass(8)] + off[|off| - 2..]
    ensures !family.HighPassFilter? && !family.LowPassFilter? ==>
              FilterTypeList(family, true) == FilterTypeList(family, false)
  {
  }

  /** Butterworth orders five to seven never appear; the eighth only on request. */
  lemma NoIntermediateButterworthOrders(family: ElectronicFilterType, showHighOrderFilters: bool,
                                        t: HighLowPassFilterType)
    requires t in FilterTypeList(family, showHighOrderFilters) && t.IsButterworth()
    ensures t.bwOrder <= 4 || (showHighOrderFilters && t.bwOrder == 8)
  {
  }

  /**
   * For a known family the default is the first entry of its drop-list, so
   * it is always a member; an unknown family gets an empty list and no default.
   */
  lemma DefaultIsFirstListed(family: ElectronicFilterType, showHighOrderFilters: bool)
    ensures var l := FilterTypeList(family, showHighOrderFilters);
            DefaultFilterType(family) == if l == [] then None else Some(l[0])
    ensures FilterTypeList(family, showHighOrderFilters) == [] <==> family.OtherFilter?
    ensures DefaultFilterType(family).Some? ==>
              DefaultFilterType(family).value in FilterTypeList(family, showHighOrderFilters)
  {
  }

  /**
   * A drop-down of filter topologies for one filter family. The list and
   * the default last handed to the selector base are its state.
   */
  class HighLowPassFilterTypeSelector {

    // The type of electronic filter this selector is used for, fixed at construction.
    const filterType: ElectronicFilterType
    const tooltipText: string

    // The drop-list and default selection last installed in the selector.
    var filterTypes: seq<HighLowPassFilterType>
    var defaultFilterType: Option<HighLowPassFilterType>

    constructor (tooltipText: string, filterType: ElectronicFilterType, showHighOrderFilters: bool)
      ensures this.filterType == filterType && this.tooltipText == tooltipText
      ensures filterTypes == FilterTypeList(filterType, showHighOrderFilters)
      ensures defaultFilterType == DefaultFilterType(filterType)
    {
      this.tooltipText := tooltipText;
      this.filterType := filterType;
      filterTypes := [];
      defaultFilterType := None;
      new;
      UpdateFilterTypes(showHighOrderFilters);
    }

    /** Rebuilds the drop-list from scratch and installs it with the family's default. */
    method UpdateFilterTypes(showHighOrderFilters: bool)
      modifies this
      ensures filterTypes == FilterTypeList(filterType, showHighOrderFilters)
      ensures defaultFilterType == DefaultFilterType(filterType)
    {
      var list: seq<HighLowPassFilterType> := [];
      match filterType {
        case HighLowPassFilter =>
          list := list + [LowPass];
          list := list + [SecondOrderHighPass];
          list := list + [EllipticalHighPass];
        case HighPassFilter =>
          list := list + [SecondOrderHighPass];
          list := list + [EllipticalHighPass];
          list := list + [ButterworthHighPass(1)];
          list := list + [ButterworthHighPass(2)];
          list := list + [ButterworthHighPass(3)];
          list := list + [ButterworthHighPass(4)];
          if showHighOrderFilters {
            // Of the higher orders only the highest is offered.
            list := list + [ButterworthHighPass(8)];
          }
          list := list + [LinkwitzRileyHighPass(2)];
          list := list + [LinkwitzRileyHighPass(4)];
        case LowPassFilter =>
          list := list + [LowPass];
          list := list + [ButterworthLowPass(1)];
          list := list + [ButterworthLowPass(2)];
          list := list + [ButterworthLowPass(3)];
          list := list + [ButterworthLowPass(4)];
          if showHighOrderFilters {
            list := list + [ButterworthLowPass(8)];
          }
          list := list + [LinkwitzRileyLowPass(2)];
          list := list + [LinkwitzRileyLowPass(4)];
        case OtherFilter(_) =>
      }

      var defaultChoice: Option<HighLowPassFilterType> := None;
      match filterType {
        case HighLowPassFilter => defaultChoice := Some(HighLowPassFilterTypeDefault);
        case HighPassFilter => defaultChoice := Some(HighPassFilterTypeDefault);
        case LowPassFilter => defaultChoice := Some(LowPassFilterTypeDefault);
        case OtherFilter(_) =>
      }

      UpdateValues(list, defaultChoice);
    }

    /** Replaces the entire list and the default selection together. */
    method UpdateValues(list: seq<HighLowPassFilterType>, defaultChoice: Option<HighLowPassFilterType>)
      modifies this`filterTypes, this`defaultFilterType
      ensures filterTypes == list && defaultFilterType == defaultChoice
    {
      filterTypes, defaultFilterType := list, defaultChoice;
    }
  }

  /** What a control sees when it toggles the high orders on a high pass selector. */
  method HighPassSelectorScenario()
  {
    var selector := new HighLowPassFilterTypeSelector("", HighPassFilter, false);
    assert |selector.filterTypes| == 8;
    assert selector.defaultFilterType == Some(SecondOrderHighPass);
    selector.UpdateFilterTypes(true);
    assert |selector.filterTypes| == 9;
    assert selector.filterTypes[6] == ButterworthHighPass(8);
    assert selector.filterType == HighPassFilter;
  }
}
