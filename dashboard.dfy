/**
 * The dashboard state manager: an ordered sequence of placed charts, the
 * handlers that add, delete and re-lay them out, and the projection of the
 * state onto the cells of the grid surface. The index of an entry is its
 * only identity: the k-th entry always corresponds to the k-th grid cell.
 */
module Dashboard {
  import opened ChartLibrary
  import Decimal

  datatype Position = Position(x: int, y: int)
  datatype Size = Size(width: int, height: int)

  /** One chart on the canvas. The same widget may be placed more than once. */
  datatype PlacedChart = PlacedChart(widgetOid: ChartId, position: Position, size: Size)

  /** One grid cell as the grid surface takes and reports it (`static` is `isStatic` here). */
  datatype LayoutItem = LayoutItem(i: string, x: int, y: int, w: int, h: int, isStatic: bool)

  const DefaultPosition := Position(0, 0)
  const DefaultSize := Size(5, 7)

  /** On the grid: non-negative coordinates and positive extents. */
  predicate WellPlaced(c: PlacedChart) {
    c.position.x >= 0 && c.position.y >= 0 && c.size.width > 0 && c.size.height > 0
  }

  predicate AllWellPlaced(s: seq<PlacedChart>) {
    forall k :: 0 <= k < |s| ==> WellPlaced(s[k])
  }

  predicate WellFormedCell(c: LayoutItem) {
    c.x >= 0 && c.y >= 0 && c.w > 0 && c.h > 0
  }

  /** The entries one batch of ids adds: one per id, in order, at the default place and size. */
  function NewEntries(ids: seq<ChartId>): (r: seq<PlacedChart>)
    ensures |r| == |ids|
    ensures forall k :: 0 <= k < |r| ==> r[k] == PlacedChart(ids[k], DefaultPosition, DefaultSize)
  {
    if ids == [] then []
    else [PlacedChart(ids[0], DefaultPosition, DefaultSize)] + NewEntries(ids[1..])
  }

  /** The state after adding `ids`: the old entries untouched, then one new entry per id, no deduplication. */
  function WithAdded(charts: seq<PlacedChart>, ids: seq<ChartId>): (r: seq<PlacedChart>)
    ensures |r| == |charts| + |ids|
    ensures r[..|charts|] == charts
    ensures forall k :: 0 <= k < |ids| ==> r[|charts| + k] == PlacedChart(ids[k], DefaultPosition, DefaultSize)
    ensures AllWellPlaced(charts) ==> AllWellPlaced(r)
  {
    charts + NewEntries(ids)
  }

  /** `splice(index, 1)` for a non-negative index: drops entry `index` if there is one. */
  function Spliced<T>(s: seq<T>, index: nat): (r: seq<T>)
    ensures index < |s| ==> |r| == |s| - 1
    ensures index < |s| ==> forall j :: 0 <= j < index ==> r[j] == s[j]
    ensures index < |s| ==> forall j :: index <= j < |r| ==> r[j] == s[j + 1]
    ensures index >= |s| ==> r == s
  {
    if index < |s| then s[..index] + s[index + 1..] else s
  }

  /** Deleting an entry in range removes exactly that one entry and nothing else. */
  lemma SplicedRemovesOne<T>(s: seq<T>, index: nat)
    requires index < |s|
    ensures multiset(Spliced(s, index)) + multiset{s[index]} == multiset(s)
  {
    assert s == s[..index] + [s[index]] + s[index + 1..];
  }

  lemma SplicedKeepsWellPlaced(s: seq<PlacedChart>, index: nat)
    requires AllWellPlaced(s)
    ensures AllWellPlaced(Spliced(s, index))
  {
  }

  /**
   * The state after a layout change: entry k keeps its widget and takes the
   * position and size of cell k. Cells past the last entry are ignored.
   */
  function Relaid(charts: seq<PlacedChart>, layout: seq<LayoutItem>): (r: seq<PlacedChart>)
    requires |layout| >= |charts|
    ensures |r| == |charts|
    ensures forall k :: 0 <= k < |r| ==>
      && r[k].widgetOid == charts[k].widgetOid
      && r[k].position == Position(layout[k].x, layout[k].y)
      && r[k].size == Size(layout[k].w, layout[k].h)
  {
    if charts == [] then []
    else
      [PlacedChart(charts[0].widgetOid, Position(layout[0].x, layout[0].y), Size(layout[0].w, layout[0].h))]
      + Relaid(charts[1..], layout[1..])
  }

  /** Only the first |charts| cells matter. */
  lemma RelaidIgnoresExtraCells(charts: seq<PlacedChart>, layout: seq<LayoutItem>)
    requires |layout| >= |charts|
    ensures Relaid(charts, layout) == Relaid(charts, layout[..|charts|])
  {
    var prefix := layout[..|charts|];
    var a, b := Relaid(charts, layout), Relaid(charts, prefix);
    forall k | 0 <= k < |a|
      ensures a[k] == b[k]
    {
      assert prefix[k] == layout[k];
    }
  }

  /** Well-formed cells give a well-placed state. */
  lemma RelaidWellPlaced(charts: seq<PlacedChart>, layout: seq<LayoutItem>)
    requires |layout| >= |charts|
    requires forall k :: 0 <= k < |charts| ==> WellFormedCell(layout[k])
    ensures AllWellPlaced(Relaid(charts, layout))
  {
  }

  /** The key the grid gives cell k: `k.toString()`. */
  function CellKey(k: nat): string
  {
    Decimal.NatToString(k)
  }

  /** The cell rendered for entry k. */
  function CellOf(k: nat, c: PlacedChart): LayoutItem
  {
    LayoutItem(CellKey(k), c.position.x, c.position.y, c.size.width, c.size.height, false)
  }

  /** The `layout` prop handed to the grid: one movable cell per entry, keyed by its index. */
  function ToLayout(charts: seq<PlacedChart>): (r: seq<LayoutItem>)
    ensures |r| == |charts|
    ensures forall k :: 0 <= k < |r| ==>
      && r[k].i == CellKey(k)
      && !r[k].isStatic
      && r[k].x == charts[k].position.x && r[k].y == charts[k].position.y
      && r[k].w == charts[k].size.width && r[k].h == charts[k].size.height
  {
    seq(|charts|, k requires 0 <= k < |charts| => CellOf(k, charts[k]))
  }

  /** Feeding the projected layout back as a layout change gives back the same state. */
  lemma LayoutRoundTrip(charts: seq<PlacedChart>)
    ensures Relaid(charts, ToLayout(charts)) == charts
  {
    var r := Relaid(charts, ToLayout(charts));
    assert forall k :: 0 <= k < |charts| ==> r[k] == charts[k];
  }

  /** Cell keys are pairwise distinct, and a key determines its entry's index. */
  lemma LayoutKeysIdentifyEntries(charts: seq<PlacedChart>)
    ensures forall j, k :: 0 <= j < |charts| && 0 <= k < |charts| && ToLayout(charts)[j].i == ToLayout(charts)[k].i ==> j == k
    ensures forall k :: 0 <= k < |charts| ==> Decimal.DigitsValue(ToLayout(charts)[k].i) == k
  {
    var cells := ToLayout(charts);
    forall j, k | 0 <= j < |charts| && 0 <= k < |charts| && cells[j].i == cells[k].i
      ensures j == k
    {
      Decimal.NatToStringInjective(j, k);
    }
    forall k | 0 <= k < |charts|
      ensures Decimal.DigitsValue(cells[k].i) == k
    {
      Decimal.NatToStringRoundTrip(k);
    }
  }

  /** The state after a series of confirmed batches, applied in turn. */
  function AddAll(charts: seq<PlacedChart>, batches: seq<seq<ChartId>>): seq<PlacedChart>
    decreases batches
  {
    if batches == [] then charts else AddAll(WithAdded(charts, batches[0]), batches[1..])
  }

  function TotalIds(batches: seq<seq<ChartId>>): nat
  {
    if batches == [] then 0 else |batches[0]| + TotalIds(batches[1..])
  }

  /** After any series of adds the length grows by the total number of ids passed: nothing dropped, nothing merged. */
  lemma {:induction false} AddAllLength(charts: seq<PlacedChart>, batches: seq<seq<ChartId>>)
    ensures |AddAll(charts, batches)| == |charts| + TotalIds(batches)
    ensures AddAll(charts, batches)[..|charts|] == charts
    decreases batches
  {
    if batches != [] {
      var next := WithAdded(charts, batches[0]);
      AddAllLength(next, batches[1..]);
      assert AddAll(charts, batches)[..|next|][..|charts|] == next[..|charts|];
    }
  }

  /**
   * Confirming a selection the user built by toggles from the empty list
   * appends the selected widgets in toggle order, each exactly once.
   */
  lemma ConfirmAddsEachSelectedOnce(charts: seq<PlacedChart>, toggles: seq<ChartId>)
    ensures var sel := ToggleAll(InitialSelection, toggles);
      var r := WithAdded(charts, sel);
      && |r| == |charts| + |sel|
      && (forall k :: 0 <= k < |sel| ==> r[|charts| + k].widgetOid == sel[k])
      && (forall j, k :: |charts| <= j < k < |r| ==> r[j].widgetOid != r[k].widgetOid)
  {
    SelectionNeverDuplicates(toggles);
  }

  /** `splice(index, 1)` on an array copy: shifts the tail down by one; `len` is the new length. */
  method SpliceOut<T>(a: array<T>, index: nat) returns (len: nat)
    modifies a
    ensures len <= a.Length
    ensures a[..len] == Spliced(old(a[..]), index)
  {
    if index >= a.Length {
      return a.Length;
    }
    var k := index;
    while k < a.Length - 1
      invariant index <= k <= a.Length - 1
      invariant forall j :: 0 <= j < index ==> a[j] == old(a[j])
      invariant forall j :: index <= j < k ==> a[j] == old(a[j + 1])
      invariant forall j :: k <= j < a.Length ==> a[j] == old(a[j])
    {
      a[k] := a[k + 1];
      k := k + 1;
    }
    len := a.Length - 1;
    assert a[..len] == old(a[..])[..index] + old(a[..])[index + 1..];
  }

  /** The root component's state and its handlers. */
  class App {
    var isChartLibraryOpen: bool
    var selectedCharts: seq<PlacedChart>
    /** How many `resize` events the handlers have dispatched to the grid. */
    var resizeSignals: nat

    constructor ()
      ensures !isChartLibraryOpen && selectedCharts == [] && resizeSignals == 0
    {
      isChartLibraryOpen := false;
      selectedCharts := [];
      resizeSignals := 0;
    }

    /** `openChartLibrary`. */
    method OpenChartLibrary()
      modifies this
      ensures isChartLibraryOpen
      ensures selectedCharts == old(selectedCharts) && resizeSignals == old(resizeSignals)
    {
      isChartLibraryOpen := true;
    }

    /** `closeChartLibrary`. */
    method CloseChartLibrary()
      modifies this
      ensures !isChartLibraryOpen
      ensures selectedCharts == old(selectedCharts) && resizeSignals == old(resizeSignals)
    {
      isChartLibraryOpen := false;
    }

    /** `handleSelectCharts`: appends one default-placed entry per id, then signals a resize. */
    method SelectCharts(ids: seq<ChartId>)
      modifies this
      ensures selectedCharts == WithAdded(old(selectedCharts), ids)
      ensures resizeSignals == old(resizeSignals) + 1
      ensures isChartLibraryOpen == old(isChartLibraryOpen)
    {
      selectedCharts := selectedCharts + NewEntries(ids);
      resizeSignals := resizeSignals + 1;
    }

    /** `handleDeleteChart`: copies the entries, splices out `index`, signals a resize. */
    method DeleteChart(index: nat)
      modifies this
      ensures selectedCharts == Spliced(old(selectedCharts), index)
      ensures resizeSignals == old(resizeSignals) + 1
      ensures isChartLibraryOpen == old(isChartLibraryOpen)
    {
      var prev := selectedCharts;
      var updated := new PlacedChart[|prev|](k requires 0 <= k < |prev| => prev[k]);
      assert updated[..] == prev;
      var len := SpliceOut(updated, index);
      selectedCharts := updated[..len];
      resizeSignals := resizeSignals + 1;
    }

    /**
     * `handleLayoutChange`: overwrites every entry's position and size from
     * the cell at the same index. With fewer cells than entries the read of
     * the missing cell throws before the state is set: `thrown`, and nothing
     * changes.
     */
    method LayoutChange(newLayout: seq<LayoutItem>) returns (thrown: bool)
      modifies this
      ensures thrown <==> |newLayout| < |old(selectedCharts)|
      ensures !thrown ==> selectedCharts == Relaid(old(selectedCharts), newLayout)
      ensures !thrown ==> resizeSignals == old(resizeSignals) + 1
      ensures thrown ==> selectedCharts == old(selectedCharts) && resizeSignals == old(resizeSignals)
      ensures isChartLibraryOpen == old(isChartLibraryOpen)
    {
      if |newLayout| < |selectedCharts| {
        return true;
      }
      thrown := false;
      selectedCharts := Relaid(selectedCharts, newLayout);
      resizeSignals := resizeSignals + 1;
    }

    /** The dialog's `handleAddToDashboard`: hands the selection over as it stands, then closes the dialog. */
    method AddToDashboard(selection: seq<ChartId>)
      modifies this
      ensures selectedCharts == WithAdded(old(selectedCharts), selection)
      ensures resizeSignals == old(resizeSignals) + 1
      ensures !isChartLibraryOpen
    {
      SelectCharts(selection);
      CloseChartLibrary();
    }
  }

  /** The walk-through of adding two charts, moving them, and deleting the first, then deleting out of range. */
  method Walkthrough()
  {
    var app := new App();
    app.SelectCharts(["w1", "w2"]);
    assert app.selectedCharts == [PlacedChart("w1", Position(0, 0), Size(5, 7)), PlacedChart("w2", Position(0, 0), Size(5, 7))];
    var thrown := app.LayoutChange([LayoutItem("0", 2, 1, 6, 8, false), LayoutItem("1", 0, 8, 4, 4, false)]);
    assert !thrown;
    assert app.selectedCharts == [PlacedChart("w1", Position(2, 1), Size(6, 8)), PlacedChart("w2", Position(0, 8), Size(4, 4))];
    app.DeleteChart(0);
    assert app.selectedCharts == [PlacedChart("w2", Position(0, 8), Size(4, 4))];
    app.DeleteChart(5);
    assert app.selectedCharts == [PlacedChart("w2", Position(0, 8), Size(4, 4))];
  }
}
