/**
 * The chart-picker dialog: a multi-select list of chart ids kept in toggle
 * order, and the choice of what the dialog shows from the state of the
 * dashboard-model fetch.
 */
module ChartLibrary {
  import opened Wrappers

  /** A widget id of the hosted dashboard (`widgetOid`). */
  type ChartId = string

  /** A selection never holds the same id twice. */
  predicate Distinct(s: seq<ChartId>) {
    forall i, j :: 0 <= i < j < |s| ==> s[i] != s[j]
  }

  /** The selection the dialog starts with each time it is mounted. */
  const InitialSelection: seq<ChartId> := []

  /** `sel.filter(oid => oid !== id)`. */
  function Without(sel: seq<ChartId>, id: ChartId): (r: seq<ChartId>)
    ensures id !in r
    ensures forall x :: x != id ==> (x in r <==> x in sel)
    ensures id !in sel ==> r == sel
    ensures id in sel ==> |r| < |sel|
    ensures |r| <= |sel|
  {
    if sel == [] then []
    else if sel[0] == id then Without(sel[1..], id)
    else [sel[0]] + Without(sel[1..], id)
  }

  /** Filtering distributes over concatenation. */
  lemma {:induction false} WithoutConcat(a: seq<ChartId>, b: seq<ChartId>, id: ChartId)
    ensures Without(a + b, id) == Without(a, id) + Without(b, id)
  {
    if a == [] {
      assert a + b == b;
    } else {
      assert (a + b)[1..] == a[1..] + b;
      WithoutConcat(a[1..], b, id);
    }
  }

  /** In a selection without duplicates, the id at index k occurs nowhere else. */
  lemma DistinctSplit(sel: seq<ChartId>, k: nat)
    requires Distinct(sel) && k < |sel|
    ensures sel[k] !in sel[..k] && sel[k] !in sel[k + 1..]
  {
    var pre, post := sel[..k], sel[k + 1..];
    forall j | 0 <= j < |pre| ensures pre[j] != sel[k] {
      assert pre[j] == sel[j];
    }
    forall j | 0 <= j < |post| ensures post[j] != sel[k] {
      assert post[j] == sel[k + 1 + j];
    }
  }

  /** Filtering out an id that occurs once cuts out just that occurrence. */
  lemma WithoutSingle(pre: seq<ChartId>, id: ChartId, post: seq<ChartId>)
    requires id !in pre && id !in post
    ensures Without(pre + [id] + post, id) == pre + post
  {
    assert pre + [id] + post == pre + ([id] + post);
    WithoutConcat(pre, [id] + post, id);
    WithoutConcat([id], post, id);
    assert Without([id], id) == [];
  }

  /** In a selection without duplicates, filtering out a present id removes exactly its one position. */
  lemma WithoutDistinct(sel: seq<ChartId>, k: nat)
    requires Distinct(sel) && k < |sel|
    ensures Without(sel, sel[k]) == sel[..k] + sel[k + 1..]
  {
    DistinctSplit(sel, k);
    assert sel == sel[..k] + [sel[k]] + sel[k + 1..];
    WithoutSingle(sel[..k], sel[k], sel[k + 1..]);
  }

  /** Filtering keeps a selection free of duplicates. */
  lemma {:induction false} WithoutKeepsDistinct(sel: seq<ChartId>, id: ChartId)
    requires Distinct(sel)
    ensures Distinct(Without(sel, id))
  {
    if sel != [] {
      assert Distinct(sel[1..]);
      WithoutKeepsDistinct(sel[1..], id);
      if sel[0] != id {
        assert sel[0] !in sel[1..];
        var t := Without(sel[1..], id);
        assert sel[0] !in t;
        assert forall j :: 0 <= j < |t| ==> ([sel[0]] + t)[j + 1] == t[j];
      }
    }
  }

  /**
   * `handleToggleChart`: a present id is filtered out, an absent id is
   * appended at the end. The toggled id's membership flips and every other
   * id's membership stays.
   */
  function Toggle(sel: seq<ChartId>, id: ChartId): (r: seq<ChartId>)
    ensures forall x :: x in r <==> (if x == id then id !in sel else x in sel)
    ensures id !in sel ==> r == sel + [id]
    ensures id in sel ==> |r| < |sel|
  {
    if id in sel then Without(sel, id) else sel + [id]
  }

  /** Toggling a present id of a duplicate-free selection removes that one entry, the others keep their order. */
  lemma TogglePresentRemoves(sel: seq<ChartId>, k: nat)
    requires Distinct(sel) && k < |sel|
    ensures Toggle(sel, sel[k]) == sel[..k] + sel[k + 1..]
  {
    WithoutDistinct(sel, k);
  }

  /** Toggling an absent id twice gives back the original selection. */
  lemma ToggleTwiceRestores(sel: seq<ChartId>, id: ChartId)
    requires id !in sel
    ensures Toggle(Toggle(sel, id), id) == sel
  {
    WithoutConcat(sel, [id], id);
    assert Without([id], id) == [];
  }

  /** One toggle keeps a selection free of duplicates. */
  lemma ToggleKeepsDistinct(sel: seq<ChartId>, id: ChartId)
    requires Distinct(sel)
    ensures Distinct(Toggle(sel, id))
  {
    if id in sel {
      WithoutKeepsDistinct(sel, id);
    }
  }

  /** The selection after the user toggles `ids` in turn. */
  function ToggleAll(sel: seq<ChartId>, ids: seq<ChartId>): seq<ChartId>
    decreases ids
  {
    if ids == [] then sel else ToggleAll(Toggle(sel, ids[0]), ids[1..])
  }

  lemma {:induction false} ToggleAllKeepsDistinct(sel: seq<ChartId>, ids: seq<ChartId>)
    requires Distinct(sel)
    ensures Distinct(ToggleAll(sel, ids))
    decreases ids
  {
    if ids != [] {
      ToggleKeepsDistinct(sel, ids[0]);
      ToggleAllKeepsDistinct(Toggle(sel, ids[0]), ids[1..]);
    }
  }

  /** Starting from the empty selection, no sequence of toggles produces a duplicate. */
  lemma SelectionNeverDuplicates(ids: seq<ChartId>)
    ensures Distinct(ToggleAll(InitialSelection, ids))
  {
    ToggleAllKeepsDistinct(InitialSelection, ids);
  }

  /** Toggles that come from the catalog's rows keep the selection inside the catalog. */
  lemma {:induction false} ToggleAllWithinCatalog(sel: seq<ChartId>, ids: seq<ChartId>, catalog: set<ChartId>)
    requires forall x :: x in sel ==> x in catalog
    requires forall x :: x in ids ==> x in catalog
    ensures forall x :: x in ToggleAll(sel, ids) ==> x in catalog
    decreases ids
  {
    if ids != [] {
      assert ids[0] in ids;
      assert forall x :: x in ids[1..] ==> x in ids;
      ToggleAllWithinCatalog(Toggle(sel, ids[0]), ids[1..], catalog);
    }
  }

  /** One widget descriptor of the fetched dashboard model. */
  datatype Widget = Widget(oid: ChartId, title: string)

  /** The fetched dashboard model; `widgets` may be undefined. */
  datatype DashboardModel = DashboardModel(oid: string, widgets: Option<seq<Widget>>)

  /** What the dashboard-model hook reports: `{dashboard, isLoading, isError, error}`. */
  datatype Fetch = Fetch(isLoading: bool, isError: bool, errorMessage: string, dashboard: Option<DashboardModel>)

  /** One row of the chooser: a widget and whether its checkbox is ticked. */
  datatype Row = Row(oid: ChartId, checked: bool)

  /** What the component renders. */
  datatype View = Loading | Failed(message: string) | Chooser(rows: seq<Row>) | Nothing

  /** `dashboard.widgets?.map(...)` renders nothing when the list is undefined. */
  function WidgetsOf(d: DashboardModel): seq<Widget>
  {
    match d.widgets
    case None => []
    case Some(ws) => ws
  }

  /** One row per widget, in catalog order, ticked exactly when its id is selected. */
  function Rows(widgets: seq<Widget>, sel: seq<ChartId>): (r: seq<Row>)
    ensures |r| == |widgets|
    ensures forall k :: 0 <= k < |r| ==> r[k].oid == widgets[k].oid && (r[k].checked <==> widgets[k].oid in sel)
  {
    if widgets == [] then []
    else [Row(widgets[0].oid, widgets[0].oid in sel)] + Rows(widgets[1..], sel)
  }

  /** The branch order of the component: loading, then error, then the chooser, else nothing. */
  function Render(f: Fetch, sel: seq<ChartId>): (v: View)
    ensures v.Loading? <==> f.isLoading
    ensures v.Failed? <==> !f.isLoading && f.isError
    ensures v.Failed? ==> v.message == f.errorMessage
    ensures v.Chooser? <==> !f.isLoading && !f.isError && f.dashboard.Some?
    ensures v.Nothing? <==> !f.isLoading && !f.isError && f.dashboard.None?
    ensures v.Chooser? ==> v.rows == Rows(WidgetsOf(f.dashboard.value), sel)
  {
    if f.isLoading then Loading
    else if f.isError then Failed(f.errorMessage)
    else match f.dashboard
      case Some(d) => Chooser(Rows(WidgetsOf(d), sel))
      case None => Nothing
  }
}
