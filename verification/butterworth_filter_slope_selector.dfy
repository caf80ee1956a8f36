/**
 * The drop-list of Butterworth filter slopes: one label per filter order,
 * in the order given, with a default picked by index.
 */
module ButterworthFilterSlopes {

  import opened Wrappers

  /** A Java short, the element type of the filter order array. */
  type Short = x: int | -0x8000 <= x < 0x8000

  /**
   * The labels of a list of filter orders, position by position.
   * `slopeLabel` stands for the signal-processing library's Butterworth
   * slope label lookup, which is not part of this model.
   */
  function SlopeLabels(slopeLabel: Short -> string, orders: seq<Short>): (labels: seq<string>)
    ensures |labels| == |orders|
  {
    if orders == [] then []
    else SlopeLabels(slopeLabel, orders[..|orders| - 1]) + [slopeLabel(orders[|orders| - 1])]
  }

  /** The k-th label is the label of the k-th order: the input order is preserved. */
  lemma {:induction false} SlopeLabelAt(slopeLabel: Short -> string, orders: seq<Short>, k: int)
    requires 0 <= k < |orders|
    ensures SlopeLabels(slopeLabel, orders)[k] == slopeLabel(orders[k])
  {
    var prefix := orders[..|orders| - 1];
    if k < |orders| - 1 {
      SlopeLabelAt(slopeLabel, prefix, k);
      assert prefix[k] == orders[k];
    }
  }

  /** Labelling distributes over concatenation: a longer order list only extends the labels. */
  lemma {:induction false} SlopeLabelsConcat(slopeLabel: Short -> string, a: seq<Short>, b: seq<Short>)
    ensures SlopeLabels(slopeLabel, a + b) == SlopeLabels(slopeLabel, a) + SlopeLabels(slopeLabel, b)
  {
    if b == [] {
      assert a + b == a;
    } else {
      var b' := b[..|b| - 1];
      assert (a + b)[..|a + b| - 1] == a + b';
      SlopeLabelsConcat(slopeLabel, a, b');
    }
  }

  /** The default picked by a valid index is one of the listed labels. */
  lemma DefaultSlopeListed(slopeLabel: Short -> string, orders: seq<Short>, defaultIndex: int)
    requires 0 <= defaultIndex < |orders|
    ensures slopeLabel(orders[defaultIndex]) in SlopeLabels(slopeLabel, orders)
  {
  }

  /**
   * A drop-down of Butterworth filter slopes. Its state is the list and the
   * default last handed to the selector base, the number format's grouping
   * flag, the visible row count and the current value.
   */
  class ButterworthFilterSlopeSelector {

    const slopeLabel: Short -> string
    const tooltipText: string

    var groupingUsed: bool
    var visibleRowCount: int
    var filterSlopes: seq<string>
    var defaultFilterSlope: Option<string>
    var value: Option<string>

    /**
     * An invalid default index is caught and only logged: construction
     * completes either way, with the list left as the base made it.
     */
    constructor (slopeLabel: Short -> string, tooltipText: string,
                 filterSlopeOrder: array<Short>, defaultFilterSlopeIndex: int)
      ensures this.slopeLabel == slopeLabel && this.tooltipText == tooltipText
      ensures !groupingUsed && visibleRowCount == 25
      ensures 0 <= defaultFilterSlopeIndex < filterSlopeOrder.Length ==>
                filterSlopes == SlopeLabels(slopeLabel, filterSlopeOrder[..]) &&
                defaultFilterSlope == Some(slopeLabel(filterSlopeOrder[defaultFilterSlopeIndex]))
      ensures !(0 <= defaultFilterSlopeIndex < filterSlopeOrder.Length) ==>
                filterSlopes == [] && defaultFilterSlope == None
    {
      this.slopeLabel := slopeLabel;
      this.tooltipText := tooltipText;
      groupingUsed := true;
      visibleRowCount := 10;
      filterSlopes := [];
      defaultFilterSlope := None;
      value := None;
      new;
      var ok := InitComboBox(filterSlopeOrder, defaultFilterSlopeIndex);
    }

    method InitComboBox(filterSlopeOrder: array<Short>, defaultFilterSlopeIndex: int) returns (ok: bool)
      modifies this`groupingUsed, this`visibleRowCount, this`filterSlopes, this`defaultFilterSlope, this`value
      ensures !groupingUsed && visibleRowCount == 25
      ensures ok <==> 0 <= defaultFilterSlopeIndex < filterSlopeOrder.Length
      ensures ok ==> filterSlopes == SlopeLabels(slopeLabel, filterSlopeOrder[..]) &&
                     defaultFilterSlope == Some(slopeLabel(filterSlopeOrder[defaultFilterSlopeIndex]))
      ensures !ok ==> filterSlopes == old(filterSlopes) && defaultFilterSlope == old(defaultFilterSlope) &&
                      value == old(value)
    {
      // Grouping is turned off for the benefit of the pattern matcher.
      groupingUsed := false;
      // The list displays all items without scrolling.
      visibleRowCount := 25;
      ok := SetFilterSlopes(filterSlopeOrder, defaultFilterSlopeIndex);
    }

    /** The current value of the drop-down. */
    method GetFilterSlope() returns (filterSlope: Option<string>)
      ensures filterSlope == value
    {
      filterSlope := value;
    }

    /** Makes the given label the current value. */
    method SetFilterSlope(filterSlopeLabel: string)
      modifies this`value
      ensures value == Some(filterSlopeLabel)
    {
      value := Some(filterSlopeLabel);
    }

    /**
     * Builds a fresh label list from the orders and installs it with the
     * label at the default index. An index outside the array is the Java
     * index error: it arises after the list is built and before anything is
     * installed, so `ok` is false and the selector keeps its old list.
     */
    method SetFilterSlopes(filterSlopeOrders: array<Short>, defaultFilterSlopeIndex: int) returns (ok: bool)
      modifies this`filterSlopes, this`defaultFilterSlope, this`value
      ensures ok <==> 0 <= defaultFilterSlopeIndex < filterSlopeOrders.Length
      ensures ok ==> filterSlopes == SlopeLabels(slopeLabel, filterSlopeOrders[..]) &&
                     defaultFilterSlope == Some(slopeLabel(filterSlopeOrders[defaultFilterSlopeIndex]))
      ensures !ok ==> filterSlopes == old(filterSlopes) && defaultFilterSlope == old(defaultFilterSlope) &&
                      value == old(value)
    {
      var slopes: seq<string> := [];
      for i := 0 to filterSlopeOrders.Length
        invariant slopes == SlopeLabels(slopeLabel, filterSlopeOrders[..i])
      {
        assert filterSlopeOrders[..i + 1][..i] == filterSlopeOrders[..i];
        slopes := slopes + [slopeLabel(filterSlopeOrders[i])];
      }
      assert filterSlopeOrders[..filterSlopeOrders.Length] == filterSlopeOrders[..];

      if !(0 <= defaultFilterSlopeIndex < filterSlopeOrders.Length) {
        return false;
      }
      var defaultSlope := slopeLabel(filterSlopeOrders[defaultFilterSlopeIndex]);

      UpdateValues(slopes, defaultSlope);
      ok := true;
    }

    /**
     * Replaces the entire list and the default selection together. The base
     * also re-asserts the current selection, which may change `value`; how
     * it does so is not part of this model, so nothing is promised about it.
     */
    method UpdateValues(slopes: seq<string>, defaultSlope: string)
      modifies this`filterSlopes, this`defaultFilterSlope, this`value
      ensures filterSlopes == slopes && defaultFilterSlope == Some(defaultSlope)
    {
      filterSlopes, defaultFilterSlope := slopes, Some(defaultSlope);
    }
  }

  /** A selector over four orders, then a call with an index past the end. */
  method SlopeSelectorScenario(slopeLabel: Short -> string)
  {
    var orders := new Short[4] [1, 2, 4, 8];
    var selector := new ButterworthFilterSlopeSelector(slopeLabel, "", orders, 2);
    assert orders[..] == [1, 2, 4, 8];
    assert selector.defaultFilterSlope == Some(slopeLabel(4));
    SlopeLabelAt(slopeLabel, orders[..], 2);
    assert |selector.filterSlopes| == 4 && selector.filterSlopes[2] == slopeLabel(4);
    var ok := selector.SetFilterSlopes(orders, 4);
    assert !ok && selector.defaultFilterSlope == Some(slopeLabel(4));
  }
}
