/**
 * The mesh and dataset containers the loader fills. Their storage is not part
 * of this model: a mesh keeps its nodes and elements and an ordered list of
 * datasets, a dataset an ordered list of outputs, and both only grow by
 * appending.
 */
module CrayfishMesh {

  import opened CrayfishTypes

  /** A mesh vertex: its index in file order and its world coordinates. */
  datatype Node = Node(id: int, x: real, y: real)

  /** A mesh element: its index, its topology and the indices of its nodes. */
  datatype Element = Element(id: int, eType: ElementType, p: seq<int>)

  /** One per-node vector (Output::float2D). */
  datatype Vec2 = Vec2(x: real, y: real)

  /**
   * One timestep of a dataset: its time in hours, one scalar per node, one
   * vector per node for a vector dataset (empty otherwise) and one wet/dry
   * flag per element.
   */
  datatype Output = Output(time: real, values: seq<real>, valuesV: seq<Vec2>, active: seq<bool>)

  /** A named, typed series of outputs over one mesh. */
  class DataSet {
    const fileName: string
    var dsType: DataSetType
    var name: string
    var timeVarying: bool
    var outputs: seq<Output>

    constructor (fileName: string)
      ensures this.fileName == fileName
      ensures outputs == []
    {
      this.fileName := fileName;
      dsType := Scalar;
      name := "";
      timeVarying := false;
      outputs := [];
    }

    /** addOutput: the output goes to the end of the series; nothing else changes. */
    method AddOutput(o: Output)
      modifies this
      ensures outputs == old(outputs) + [o]
      ensures dsType == old(dsType) && name == old(name) && timeVarying == old(timeVarying)
    {
      outputs := outputs + [o];
    }
  }

  /** A mesh: fixed nodes and elements, and the datasets attached to it. */
  class Mesh {
    const nodes: seq<Node>
    const elements: seq<Element>
    var dataSets: seq<DataSet>

    constructor (nodes: seq<Node>, elements: seq<Element>)
      ensures this.nodes == nodes && this.elements == elements
      ensures dataSets == []
    {
      this.nodes := nodes;
      this.elements := elements;
      dataSets := [];
    }

    /** addDataSet: the dataset goes to the end of the list. */
    method AddDataSet(ds: DataSet)
      modifies this
      ensures dataSets == old(dataSets) + [ds]
    {
      dataSets := dataSets + [ds];
    }
  }
}
