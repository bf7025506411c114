# Self-service dashboard builder: state manager and chart picker

This project models the only original logic of a small React dashboard
builder. The user picks charts from a hosted BI dashboard, places them on a
draggable grid, moves and resizes them, and deletes them. Two components are
modelled.

- **The dashboard state** (`src/App.tsx`). It is an ordered sequence of placed
  charts. Each entry is a widget id with an integer position `{x, y}` and size
  `{width, height}`. The root component's handlers add a batch of charts,
  delete one by index, and overwrite every position and size from the grid's
  reported layout. The state is projected onto the grid's cells on each
  render. The model is the class `Dashboard.App`. Its fields are the
  component's state, and each handler is a method that replaces them. The
  delete handler copies the entries into an array and splices one out in place
  (`Dashboard.SpliceOut`). Every method is specified by a pure function of the
  old state (`WithAdded`, `Spliced`, `Relaid`), and the lemmas are stated
  about those functions.
- **The chart picker** (`src/ChartLibrary.tsx`). It holds a multi-select list
  of widget ids in toggle order. The list starts empty each time the dialog
  opens. Toggling removes a present id and appends an absent one. Confirming
  hands the list to the dashboard and closes the dialog. Which screen the
  dialog shows (loading, error, chooser or nothing) depends on the fetch flags.
  This code is pure, so it is modelled with functions and lemmas.

The grid cell key is `index.toString()`. It is modelled in `Decimal` as
base-10 text, and a proof shows that it reads back to the index. So the keys
of the projected cells are pairwise distinct, and each key identifies its
entry.

## Model

| member | source | states |
|---|---|---|
| `Dashboard.NewEntries` | src/App.tsx:38-42 | one entry per id, in id order, each with position (0,0) and size (5,7) |
| `Dashboard.WithAdded` | src/App.tsx:37-43 | adding keeps every old entry, appends one default entry per id in order, and the length grows by the number of ids (no deduplication); well-placed entries stay well placed |
| `Dashboard.AddAllLength` | src/App.tsx:37-43 | after any series of adds, the length is the old length plus the total number of ids passed, and the old entries are a prefix |
| `Dashboard.Spliced` | src/App.tsx:47-52 | for an index in range, the length drops by one, earlier entries stay and later entries shift down by one; for an index at or past the end the state is unchanged |
| `Dashboard.SplicedRemovesOne` | src/App.tsx:49-50 | deleting in range removes exactly the entry at that index: the multiset of entries loses that one element |
| `Dashboard.SplicedKeepsWellPlaced` | src/App.tsx:47-52 | deleting keeps every remaining entry's position non-negative and its size positive |
| `Dashboard.SpliceOut` | src/App.tsx:49-50 | the in-place `splice(index, 1)` on the copied array leaves exactly `Spliced(old contents, index)` in the array's live prefix |
| `Dashboard.Relaid` | src/App.tsx:56-62 | a layout change keeps the length and every entry's widget id; entry k takes position (x, y) and size (w, h) from cell k; it needs at least as many cells as entries |
| `Dashboard.RelaidIgnoresExtraCells` | src/App.tsx:57-61 | cells past the last entry have no effect |
| `Dashboard.RelaidWellPlaced` | src/App.tsx:56-62 | well-formed cells (non-negative position, positive size) give a state whose entries are all well placed |
| `Dashboard.ToLayout` | src/App.tsx:134-141 | the projection gives one cell per entry; cell k has key `k.toString()`, is not static, and copies x, y, w and h from entry k |
| `Dashboard.LayoutRoundTrip` | src/App.tsx:56-62 | applying the layout projected from a state back to that state gives the same state |
| `Dashboard.LayoutKeysIdentifyEntries` | src/App.tsx:134-135 | the cell keys are pairwise distinct, and key k reads back as the number k |
| `Dashboard.ConfirmAddsEachSelectedOnce` | src/ChartLibrary.tsx:20-39 | confirming a selection built by toggles from the empty list appends the selected widgets in toggle order, and no widget appears twice in the batch |
| `Dashboard.App.constructor` | src/App.tsx:19-26 | the dashboard starts with no charts and the picker closed |
| `Dashboard.App.OpenChartLibrary` | src/App.tsx:29-31 | opening the picker sets the open flag and changes nothing else |
| `Dashboard.App.CloseChartLibrary` | src/App.tsx:33-35 | closing the picker clears the open flag and changes nothing else |
| `Dashboard.App.SelectCharts` | src/App.tsx:37-45 | the new state is `WithAdded(old state, ids)`, and one resize is signalled |
| `Dashboard.App.DeleteChart` | src/App.tsx:47-54 | the new state is `Spliced(old state, index)` for every non-negative index, and one resize is signalled |
| `Dashboard.App.LayoutChange` | src/App.tsx:56-64 | with at least as many cells as entries, the new state is `Relaid(old state, cells)` and one resize is signalled; with fewer cells the missing cell's read throws, and the state and signals are unchanged |
| `Dashboard.App.AddToDashboard` | src/ChartLibrary.tsx:37-40 | confirming hands the selection to the add handler exactly as it stands, in toggle order, and then closes the picker |
| `ChartLibrary.Without` | src/ChartLibrary.tsx:30 | filtering removes every occurrence of the id, keeps the membership of every other id, and leaves a list without the id unchanged |
| `ChartLibrary.WithoutConcat` | src/ChartLibrary.tsx:30 | filtering distributes over concatenation, so the surviving ids keep their relative order |
| `ChartLibrary.WithoutDistinct` | src/ChartLibrary.tsx:30 | in a duplicate-free list, filtering out the id at index k is the list with position k cut out |
| `ChartLibrary.WithoutKeepsDistinct` | src/ChartLibrary.tsx:30 | filtering keeps a list free of duplicates |
| `ChartLibrary.Toggle` | src/ChartLibrary.tsx:27-35 | the toggled id's membership is negated and every other id's membership is unchanged; an absent id is appended at the end; a present id shortens the list |
| `ChartLibrary.TogglePresentRemoves` | src/ChartLibrary.tsx:29-30 | toggling a present id of a duplicate-free selection removes exactly that entry, and the others keep their order |
| `ChartLibrary.ToggleTwiceRestores` | src/ChartLibrary.tsx:29-33 | toggling an absent id twice gives back the original list |
| `ChartLibrary.ToggleKeepsDistinct` | src/ChartLibrary.tsx:27-35 | one toggle keeps a selection free of duplicates |
| `ChartLibrary.ToggleAllKeepsDistinct` | src/ChartLibrary.tsx:27-35 | any series of toggles keeps a selection free of duplicates |
| `ChartLibrary.SelectionNeverDuplicates` | src/ChartLibrary.tsx:20-35 | starting from the empty list, no series of toggles produces a duplicate |
| `ChartLibrary.ToggleAllWithinCatalog` | src/ChartLibrary.tsx:80-82 | toggles coming from the catalog's checkboxes keep the selection inside the catalog |
| `ChartLibrary.Rows` | src/ChartLibrary.tsx:64-86 | the chooser shows one row per widget, in catalog order, ticked exactly when its id is selected |
| `ChartLibrary.Render` | src/ChartLibrary.tsx:42-101 | loading wins over error, error wins over the chooser, and with no dashboard model nothing is shown; each case holds exactly under its flags; the error screen carries the message |
| `Decimal.NatToString` | src/App.tsx:135 | an index's text is non-empty, all digits, has no leading zero, and is one character exactly for indices below 10 |
| `Decimal.NatToStringRoundTrip` | src/App.tsx:135 | reading an index's text back as a decimal number gives the index |
| `Decimal.NatToStringInjective` | src/App.tsx:135 | distinct indices have distinct texts |

## Left out

- `exportToPDF` (src/App.tsx:66-87) is left out. It is browser I/O: a DOM lookup, a style change, asynchronous rasterisation and a file download. As written, it restores the box shadow only in the success continuation (line 84), not when rasterisation fails.
- The `resize` events (src/App.tsx:44, 51, 63) are modelled only as a counter, `resizeSignals`, which each handler increments. When the grid observes them relative to the state commit is React scheduling and is not modelled.
- `handleLayoutChange` reads `selectedCharts` from the render closure, not the updater's previous state (src/App.tsx:57). The model applies all updates in sequence, so it does not capture a stale closure.
- Negative indices to delete are not modelled. JavaScript's `splice` counts them from the end, but the handler only receives indices from the `map` over the state (src/App.tsx:150, 208). `DeleteChart` therefore takes a `nat`.
- `Dashboard.SpliceOut` keeps the array's allocated length and returns the new logical length. A JavaScript array shrinks instead.
- JavaScript numbers are modelled as unbounded integers. Fractional or non-finite coordinates from the grid are not modelled.
- The grid surface, the chart renderer (`DashboardWidget`), the dashboard-model fetch (`useGetDashboardModel`), MUI components and all JSX are foreign UI or SDK code. The fetch's result is a parameter (`ChartLibrary.Fetch`). The case where `isError` is set but `error` is undefined is not modelled: the error message is a plain string.
- Cancelling the picker (src/ChartLibrary.tsx:93) unmounts it and discards the selection. The model covers this only through the empty initial selection that each mount starts from (`ChartLibrary.InitialSelection`).
- src/index.tsx is not part of this model. It only wires up the bootstrap and context provider.
- The requirement that layout length matches state length is not enforced by the source. The source throws when there are too few cells and ignores extra cells. The model follows the source (`App.LayoutChange`, `RelaidIgnoresExtraCells`) and does not truncate.
