# GDS layer data facade, modelled in Dafny

This project models the original logic of `src/pyedb/ic/gds_data.py`, a thin
facade over a KLayout layout database. The model covers four things:

- **Shape classification.** `ICLayerData._update_shapes` walks every cell the
  layout enumerates and builds a `CellShapes` bucket for each. It sorts the
  cell's shapes on one (layer number, datatype) pair into `pins`, `labels`,
  `nets`, `polygons`, `boxes` and `paths`. Four independent rules decide this,
  keyed on substrings of the lower-cased purpose string (`"pin"`, `"net"`,
  `"drawing"`) and on the `skip_labels` flag.
- **The `shapes` cache.** It is filled on read, but only while it is empty.
- **Setters with type guards.** The `name`, `index` and `data_type` setters
  write the new value through to the engine's layer-info record.
- **The small setters** of `CellData` and `ICLayoutData`.

Modules:

- `Values` (`values.dfy`): Python values as the setters receive them, and the
  `isinstance` guards. `bool` counts as an `int`, so `True` passes the `index`
  and `data_type` guards as 1.
- `Engine` (`engine.dfy`): the layout engine as the facade uses it.
  - Cells have a name and hold shapes per (layer number, datatype) pair.
  - Each shape has an identity, a kind (`Box | Polygon | Path | Text | Other`)
    and an integer centre.
  - The layer-info table is a `map<int, LayerInfo>`, read by `GetInfo` and
    written by `SetInfo`.
  - Python attribute assignment on a record is modelled by `AssignAttribute`.
- `Classify` (`classify.dfy`):
  - the bucket datatype and `IsEmpty`;
  - ASCII lower-casing and substring search;
  - the order-preserving filters `OfKind` and `BoxCentres`;
  - the specification functions `ClassifyCell` (one cell) and
    `ClassifyLayout` (all cells, first cell of each name wins);
  - the lemmas that say what these mean;
  - `FillBucket`, the four inner loops, proved against `ClassifyCell`.
- `GdsData` (`gds_data.dfy`): the classes `LayerData`, `CellData` and
  `LayoutData`. Their fields are the Python attributes. Their setters and
  `UpdateShapes`/`Shapes` are methods that state the whole new state.

Behaviour of the code that the model keeps, some of it easy to miss:

- The classification walks every cell `each_cell()` yields, not only top
  cells.
- A shape can land in several lists. The rules are independent (a polygon on a
  `"net drawing"` layer is in `nets` and in `polygons`), so shapes are not
  classified into exactly one bucket.
- The cache is guarded by emptiness, not by a "computed" flag. A layout with
  no cells is therefore classified again on every read
  (`ClassifyLayoutEmptyIff`), not only once.
- Setters never clear the cache. Changing the purpose or index after a read
  leaves the old buckets in place.
- The `index` setter writes the new number into the record stored under the
  old index. Later `name` and `data_type` writes then go to the record under
  the new index.
- Pins are integer points, not the float pair `[5.0, 5.0]` that the
  engine's `dbox.center()` gives.

## Model

| member | source | states |
|---|---|---|
| `Classify.CellShapes.IsEmpty` | src/pyedb/ic/gds_data.py:35-49 | true exactly when all six lists together hold nothing |
| `Classify.Lower` | src/pyedb/ic/gds_data.py:314 | the lowered purpose has the same length, no upper-case ASCII letter, and agrees with the input up to case |
| `Classify.ContainsIff` | src/pyedb/ic/gds_data.py:314 | the `in` test on strings holds exactly when the keyword occurs at some offset of the lowered purpose |
| `Classify.OfKindCounts` | src/pyedb/ic/gds_data.py:328-335 | a kind filter holds each shape of that kind as often as the layer's list does, and no shape of another kind |
| `Classify.OfKindAppend` | src/pyedb/ic/gds_data.py:328-335 | a kind filter keeps list order: filtering a concatenation is concatenating the filters |
| `Classify.BoxCentresOfBoxes` | src/pyedb/ic/gds_data.py:315-318 | the recorded centres are one per box shape, in order, each the centre of the matching box |
| `Classify.KindsPartition` | src/pyedb/ic/gds_data.py:328-335 | the five kinds split the shape list: their filters' lengths add up to its length |
| `Classify.PinRule` | src/pyedb/ic/gds_data.py:314-320 | with "pin" in the lowered purpose, pins are the centres of the box shapes in order and polygons add nothing; otherwise pins is empty |
| `Classify.LabelRule` | src/pyedb/ic/gds_data.py:321-324 | unless labels are skipped, labels are exactly the text shapes with their multiplicity; otherwise empty |
| `Classify.DrawingRule` | src/pyedb/ic/gds_data.py:328-335 | with "drawing", polygons, boxes and paths together hold each polygon, box and path shape as often as the list does, drop text and other shapes, and are no longer than the list; otherwise all three are empty |
| `Classify.MembershipRules` | src/pyedb/ic/gds_data.py:321-335 | a shape is in nets iff "net" is in the purpose; in labels iff labels are kept and it is text; in polygons, boxes or paths iff "drawing" is in the purpose and it has that kind. The rules are independent of each other |
| `Classify.ClassifiedEmptyIff` | src/pyedb/ic/gds_data.py:305-335 | a cell's bucket is empty exactly when no rule records any shape of its list |
| `Classify.ClassifyLayoutKeys` | src/pyedb/ic/gds_data.py:306-311 | the cache holds one bucket per name of an enumerated cell, also for cells with no shapes on the layer, and no other |
| `Classify.ClassifyLayoutFirst` | src/pyedb/ic/gds_data.py:308-311 | the bucket stored under a name is the one classified from the first cell of that name; later cells of that name are discarded |
| `Classify.ClassifyLayoutEmptyIff` | src/pyedb/ic/gds_data.py:278-282 | classification leaves the cache empty exactly when the layout has no cells, so only then do later reads classify again |
| `Classify.TopPinExample` | src/pyedb/ic/gds_data.py:314-318 | a cell "TOP" with one box centred at (5, 5) on layer 5/0, purpose "Pin": its bucket's pins are [(5, 5)] and it has no labels |
| `Classify.CollectPins` | src/pyedb/ic/gds_data.py:315-320 | the pin loop yields exactly the box centres of the list in order (`BoxCentres`) |
| `Classify.CollectLabels` | src/pyedb/ic/gds_data.py:322-324 | the label loop yields exactly the text shapes of the list in order (`OfKind` of `Text`) |
| `Classify.RouteDrawn` | src/pyedb/ic/gds_data.py:329-335 | the drawing loop yields exactly the polygon, box and path filters of the list, in order |
| `Classify.NonEmptyHasCaught` | src/pyedb/ic/gds_data.py:314-335 | a bucket with anything recorded has a shape of its list that some rule catches |
| `Classify.CaughtMakesNonEmpty` | src/pyedb/ic/gds_data.py:314-335 | a shape of the list that some rule catches makes the bucket non-empty |
| `Classify.FillBucket` | src/pyedb/ic/gds_data.py:309-335 | a fresh bucket filled by the four rule loops in turn is exactly the bucket `ClassifyCell` specifies |
| `Engine.AssignAttribute` | src/pyedb/ic/gds_data.py:262 | assigning `layer` or `datatype` to a layer-info record changes that field only; any other attribute name changes none of the engine's fields |
| `Engine.DataTypeAttributeExample` | src/pyedb/ic/gds_data.py:274 | assigning `data_type` leaves a record's datatype as it was, and assigning `datatype` sets it |
| `GdsData.LayerData.constructor` | src/pyedb/ic/gds_data.py:233-240 | the layer starts with the given identity, purpose and skip flag (skipping labels by default) and an empty cache |
| `GdsData.LayerData.SetName` | src/pyedb/ic/gds_data.py:246-252 | a string is written into the engine's record under the current index and kept locally; any other value changes neither |
| `GdsData.LayerData.SetIndex` | src/pyedb/ic/gds_data.py:258-264 | an int, or a bool, becomes the layer number of the record under the old index and then the local index; any other value changes neither |
| `GdsData.LayerData.SetDataType` | src/pyedb/ic/gds_data.py:270-276 | corrected setter: an int, or a bool, becomes the datatype of the record under the current index and the local data type, so the two agree; any other value changes neither |
| `GdsData.LayerData.SetDataTypeAsWritten` | src/pyedb/ic/gds_data.py:270-276 | as written: an int changes the local data type, but the engine's record keeps its datatype; any other value changes neither |
| `GdsData.LayerData.SetPurpose` | src/pyedb/ic/gds_data.py:288-291 | only a string replaces the purpose; the engine and the cache stay untouched |
| `GdsData.LayerData.SetSkipLabels` | src/pyedb/ic/gds_data.py:297-300 | only a bool replaces the flag; the engine and the cache stay untouched |
| `GdsData.LayerData.UpdateShapes` | src/pyedb/ic/gds_data.py:305-335 | the cache is rebuilt as `ClassifyLayout` of the engine's current cells; its keys are exactly the cell names |
| `GdsData.LayerData.Shapes` | src/pyedb/ic/gds_data.py:278-282 | a non-empty cache is returned unchanged without classifying; an empty one is refilled by classification first |
| `GdsData.CellData.constructor` | src/pyedb/ic/gds_data.py:180-182 | the cell keeps the given layout handle and name |
| `GdsData.CellData.SetName` | src/pyedb/ic/gds_data.py:194-197 | whatever is assigned, the cell is unchanged |
| `GdsData.LayoutData.constructor` | src/pyedb/ic/gds_data.py:155-158 | the layout keeps the given handle, layers and cells |
| `GdsData.LayoutData.SetLayers` | src/pyedb/ic/gds_data.py:164-167 | only a list replaces the layers |
| `GdsData.LayoutData.SetCells` | src/pyedb/ic/gds_data.py:173-176 | only a list replaces the cells |

## Findings

| source | as written | input that shows it | evidently intended | confidence | as-written member | corrected member |
|---|---|---|---|---|---|---|
| src/pyedb/ic/gds_data.py:274 | `info.data_type = value` assigns an attribute that the engine's layer-info record does not have (its field is `datatype`), so `set_info` writes the record back with its datatype unchanged while the local data type takes the new value | a layer whose record has datatype 0, given `data_type = 7`: the local data type is 7, the engine's record keeps 0 (`Engine.DataTypeAttributeExample`) | the record's datatype becomes 7, as the `index` (line 262) and `name` (line 250) setters write their fields | medium, not executed: this reads the record's datatype field as `datatype`; if the record refuses unknown attributes, the setter raises instead, and the write is lost either way | `GdsData.LayerData.SetDataTypeAsWritten` | `GdsData.LayerData.SetDataType` |

## Left out

- `ICBox`, `ICPath`, `ICPolygon` (lines 52-151) only forward to the engine's shape methods (centre, corners, width, extensions, length, points, hull, holes, edges, area). They have no logic of their own. The `num_holes` result that is either `0` or a list comes from the engine's answer and is left out with them.
- `CellData.kcell`, `bbox`, `polygons`, `boxes`, `paths`, `labels`, `pins` and `nets` (lines 199-229) are not modelled. They are live engine queries, or re-wrap stored dictionaries that nothing in this file fills.
- `_update_cell_shapes` (lines 302-303) does nothing, so it is not modelled.
- Plain getters (`name`, `index`, `data_type`, `purpose`, `skip_labels`, `layers`, `cells`) are modelled only as reads of the class fields.
- Geometry is not modelled. Box centres are integer points, not the engine's floating-point `dbox.center()`.
- The engine's `layer(index, datatype)` lookup is a plain table lookup (`Engine.ShapesOn`). The engine may create a missing layer there; that side effect is not modelled.
- `get_info` on an index the table does not hold returns an empty record (`Engine.EmptyInfo`), and `set_info` stores under any index. The engine's own behaviour for an invalid index (and any exception it raises) is not modelled.
- Constructor arguments are typed: the name and purpose as strings, index and data type as integers. The source accepts any object there, and fails later if it cannot lower-case the purpose or convert the numbers.
- A `bool` passed to the `index` or `data_type` setter is stored as its integer value. Python keeps the `bool` object itself, which compares equal to that integer.
- In Python, each bucket is put into the cache dictionary before its lists are filled in place. The model decides first whether the name is new, fills the bucket as a value, then stores it. Nothing can observe the bucket in between, so the final state is the same, but bucket aliasing is not modelled.
- `LayoutData` keeps its layers and cells as opaque values, because the container never looks inside them.
- Classify.Lower: lower-cases ASCII letters only, where Python's `str.lower` also lower-cases other Unicode letters.
- The shape kinds are exclusive, so the `elif` order of the drawing rule makes no difference in the model.
- Concurrency and later mutation of the engine data are not modelled. The model has one caller, and a cache that stays stale after the engine changes.
