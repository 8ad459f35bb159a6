/** The part of the layout engine that the facade relies on: the cells it
    enumerates, the shapes each cell holds per (layer number, datatype) pair,
    and the per-layer info records read with `get_info` and written with
    `set_info`. The engine is a collaborator, not part of the facade; it is
    kept as small as the facade's use of it allows. */
module Engine {

  /** What the kind predicates `is_box`, `is_polygon`, `is_path`, `is_text`
      of a shape report; a shape answers true to at most one of them. */
  datatype Kind = Box | Polygon | Path | Text | Other

  /** A box centre; the engine's floating-point coordinates are abstracted
      to integers. */
  datatype Point = Point(x: int, y: int)

  /** A shape handle: its identity, its kind and (meaningful for boxes) its centre. */
  datatype Shape = Shape(id: nat, kind: Kind, center: Point)

  /** A cell: its name and the shapes it holds on each (layer number, datatype) pair. */
  datatype Cell = Cell(name: string, layers: map<(int, int), seq<Shape>>)

  /** `kcell.shapes(layout.layer(index, dataType))`: a layer the cell holds
      nothing on yields no shapes. */
  function ShapesOn(c: Cell, index: int, dataType: int): seq<Shape> {
    if (index, dataType) in c.layers then c.layers[(index, dataType)] else []
  }

  /** A layer-info record. `extra` holds attributes that Python code assigned
      to the record under names the engine does not know; the engine ignores them. */
  datatype LayerInfo = LayerInfo(name: string, layer: int, dataType: int, extra: map<string, int>)

  /** The record handed out for a layer index the table does not hold. */
  const EmptyInfo := LayerInfo("", -1, -1, map[])

  /** Python's `info.<attr> = v` for an integer `v` on a layer-info record:
      the engine's own attributes are `layer` and `datatype`; any other name
      becomes an attribute the engine never reads. */
  function AssignAttribute(info: LayerInfo, attr: string, v: int): (r: LayerInfo)
    ensures r.name == info.name
    ensures r.layer == (if attr == "layer" then v else info.layer)
    ensures r.dataType == (if attr == "datatype" then v else info.dataType)
  {
    if attr == "layer" then info.(layer := v)
    else if attr == "datatype" then info.(dataType := v)
    else info.(extra := info.extra[attr := v])
  }

  /** Assigning `data_type` to a record whose datatype is 0 leaves it 0;
      assigning `datatype` makes it 7. */
  lemma DataTypeAttributeExample()
    ensures AssignAttribute(LayerInfo("M1", 5, 0, map[]), "data_type", 7).dataType == 0
    ensures AssignAttribute(LayerInfo("M1", 5, 0, map[]), "datatype", 7).dataType == 7
  {
  }

  /** The layout database handle shared by every container of the facade. */
  class Layout {
    var cells: seq<Cell>
    var info: map<int, LayerInfo>

    constructor (cells: seq<Cell>, info: map<int, LayerInfo>)
      ensures this.cells == cells && this.info == info
    {
      this.cells := cells;
      this.info := info;
    }

    /** `get_info(index)`. */
    function GetInfo(index: int): LayerInfo
      reads this
    {
      if index in info then info[index] else EmptyInfo
    }

    /** `set_info(index, record)`. */
    method SetInfo(index: int, record: LayerInfo)
      modifies this`info
      ensures info == old(info)[index := record]
      ensures GetInfo(index) == record
    {
      info := info[index := record];
    }
  }
}
