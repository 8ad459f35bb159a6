/** The containers of the facade: a layer with its write-through identity and
    its lazily filled cache of classified shapes, a cell, and the layout pairing
    lists of both. */
module GdsData {
  import opened Values
  import opened Engine
  import opened Classify

  /** One layer of the layout, filtered by a purpose. */
  class LayerData {
    const layout: Layout
    var name: string
    var index: int
    var dataType: int
    var purpose: string
    var skipLabels: bool
    /** The cache: cell name to classified bucket; empty until first read. */
    var shapes: map<string, CellShapes>

    constructor (layout: Layout, name: string, index: int, dataType: int, purpose: string, skipLabels: bool := true)
      ensures this.layout == layout && this.name == name && this.index == index
      ensures this.dataType == dataType && this.purpose == purpose && this.skipLabels == skipLabels
      ensures shapes == map[]
    {
      this.layout := layout;
      this.name := name;
      this.index := index;
      this.dataType := dataType;
      this.shapes := map[];
      this.purpose := purpose;
      this.skipLabels := skipLabels;
    }

    /** The `name` setter: a string is written into the engine's record
        under the current index, then kept locally; anything else is ignored. */
    method SetName(v: Value)
      modifies this`name, layout`info
      ensures v.VStr? ==> name == v.s
      ensures v.VStr? ==> layout.info == old(layout.info)[index := old(layout.GetInfo(index)).(name := v.s)]
      ensures !v.VStr? ==> name == old(name) && layout.info == old(layout.info)
    {
      if v.VStr? {
        var info := layout.GetInfo(index);
        info := info.(name := v.s);
        layout.SetInfo(index, info);
        name := v.s;
      }
    }

    /** The `index` setter: an int (or bool) becomes the layer number of the
        record stored under the OLD index, then the local index; anything
        else is ignored. */
    method SetIndex(v: Value)
      modifies this`index, layout`info
      ensures IsInt(v) ==> index == IntOf(v)
      ensures IsInt(v) ==> layout.info == old(layout.info)[old(index) := old(layout.GetInfo(index)).(layer := IntOf(v))]
      ensures !IsInt(v) ==> index == old(index) && layout.info == old(layout.info)
    {
      if IsInt(v) {
        var info := layout.GetInfo(index);
        info := AssignAttribute(info, "layer", IntOf(v));
        layout.SetInfo(index, info);
        index := IntOf(v);
      }
    }

    /** The `data_type` setter as evidently intended: an int (or bool) becomes
        the datatype of the record under the current index, then the local
        data type; anything else is ignored. */
    method SetDataType(v: Value)
      modifies this`dataType, layout`info
      ensures IsInt(v) ==> dataType == IntOf(v)
      ensures IsInt(v) ==> layout.info == old(layout.info)[index := old(layout.GetInfo(index)).(dataType := IntOf(v))]
      ensures IsInt(v) ==> layout.GetInfo(index).dataType == dataType
      ensures !IsInt(v) ==> dataType == old(dataType) && layout.info == old(layout.info)
    {
      if IsInt(v) {
        var info := layout.GetInfo(index);
        info := AssignAttribute(info, "datatype", IntOf(v));
        layout.SetInfo(index, info);
        dataType := IntOf(v);
      }
    }

    /** The `data_type` setter as written: it assigns the record's attribute
        `data_type`, which the engine's record does not have (its attribute
        is `datatype`), so the record goes back with its datatype unchanged
        while the local data type moves on. */
    method SetDataTypeAsWritten(v: Value)
      modifies this`dataType, layout`info
      ensures IsInt(v) ==> dataType == IntOf(v)
      ensures IsInt(v) ==> layout.GetInfo(index).dataType == old(layout.GetInfo(index)).dataType
      ensures IsInt(v) ==> layout.info == old(layout.info)[index := AssignAttribute(old(layout.GetInfo(index)), "data_type", IntOf(v))]
      ensures !IsInt(v) ==> dataType == old(dataType) && layout.info == old(layout.info)
    {
      if IsInt(v) {
        var info := layout.GetInfo(index);
        info := AssignAttribute(info, "data_type", IntOf(v));
        layout.SetInfo(index, info);
        dataType := IntOf(v);
      }
    }

    /** The `purpose` setter: only a string is taken; the engine is not
        touched and the cache is not cleared. */
    method SetPurpose(v: Value)
      modifies this`purpose
      ensures purpose == if v.VStr? then v.s else old(purpose)
    {
      if v.VStr? {
        purpose := v.s;
      }
    }

    /** The `skip_labels` setter: only a bool is taken; the engine is not
        touched and the cache is not cleared. */
    method SetSkipLabels(v: Value)
      modifies this`skipLabels
      ensures skipLabels == if v.VBool? then v.b else old(skipLabels)
    {
      if v.VBool? {
        skipLabels := v.b;
      }
    }

    /** `_update_shapes`: the cache is reset, then every enumerated cell gets
        a bucket classified from its shapes on this layer, unless a cell of
        the same name came earlier. */
    method UpdateShapes()
      modifies this`shapes
      ensures shapes == ClassifyLayout(layout.cells, index, dataType, purpose, skipLabels)
      ensures shapes.Keys == set c | c in layout.cells :: c.name
    {
      shapes := map[];
      var topCells := layout.cells;
      for i := 0 to |topCells|
        invariant shapes == ClassifyLayout(topCells[..i], index, dataType, purpose, skipLabels)
      {
        assert topCells[..i + 1][..i] == topCells[..i];
        var kcell := topCells[i];
        var isNew := kcell.name !in shapes;
        var shapeList := ShapesOn(kcell, index, dataType);
        var cell := FillBucket(shapeList, purpose, skipLabels);
        if isNew {
          shapes := shapes[kcell.name := cell];
        }
      }
      assert topCells[..|topCells|] == topCells;
      ClassifyLayoutKeys(topCells, index, dataType, purpose, skipLabels);
    }

    /** The `shapes` getter: classification runs only when the cache is
        empty, so a non-empty cache is returned as it is and a layout with
        no cells is classified again on every read. */
    method Shapes() returns (r: map<string, CellShapes>)
      modifies this`shapes
      ensures old(shapes) != map[] ==> shapes == old(shapes)
      ensures old(shapes) == map[] ==> shapes == ClassifyLayout(layout.cells, index, dataType, purpose, skipLabels)
      ensures r == shapes
    {
      if shapes == map[] {
        UpdateShapes();
      }
      r := shapes;
    }
  }

  /** One cell of the layout; its name is fixed at construction. */
  class CellData {
    const layout: Layout
    var name: string

    constructor (layout: Layout, name: string)
      ensures this.layout == layout && this.name == name
    {
      this.layout := layout;
      this.name := name;
    }

    /** The `name` setter does nothing, whatever it is given. */
    method SetName(v: Value)
      modifies this
      ensures unchanged(this)
    {
    }
  }

  /** The layout: lists of layers and of cells, never checked against each other. */
  class LayoutData {
    const layout: Layout
    var layers: Value
    var cells: Value

    constructor (layout: Layout, layers: Value, cells: Value)
      ensures this.layout == layout && this.layers == layers && this.cells == cells
    {
      this.layout := layout;
      this.layers := layers;
      this.cells := cells;
    }

    /** The `layers` setter: only a list replaces the layers. */
    method SetLayers(v: Value)
      modifies this`layers
      ensures layers == if v.VList? then v else old(layers)
    {
      if v.VList? {
        layers := v;
      }
    }

    /** The `cells` setter: only a list replaces the cells. */
    method SetCells(v: Value)
      modifies this`cells
      ensures cells == if v.VList? then v else old(cells)
    {
      if v.VList? {
        cells := v;
      }
    }
  }
}
