/**
 * loadSWW: decoding an SWW file (the netCDF-based result format of a
 * hydrodynamic simulator) into a triangular mesh with a bed elevation dataset, a depth
 * series and, when the file carries momentum, a momentum series.
 *
 * The pure functions and predicates below state what each part of the load
 * must produce; the methods do the work the way the loader does it, with
 * arrays filled in loops, and are proved against them.
 */
module Sww {

  import opened Wrappers
  import opened CrayfishTypes
  import opened NetCdf
  import opened CrayfishMesh

  /** DEPTH_THRESHOLD: a node is wet when its depth exceeds this, in metres. */
  const DepthThreshold: real := 0.0001

  /** The file stores time in seconds; outputs carry hours. */
  const SecondsPerHour: real := 3600.0

  /** INT_MAX of the C `int` the loader counts and indexes with. */
  const IntMax: nat := 0x7fff_ffff

  const VolumesDim: string := "number_of_volumes"
  const VerticesDim: string := "number_of_vertices"
  const PointsDim: string := "number_of_points"
  const TimestepsDim: string := "number_of_timesteps"

  const XVar: string := "x"
  const YVar: string := "y"
  const ZVar: string := "z"
  const VolumesVar: string := "volumes"
  const TimeVar: string := "time"
  const StageVar: string := "stage"
  const XMomentumVar: string := "xmomentum"
  const YMomentumVar: string := "ymomentum"

  /** What the caller finds in its LoadStatus after the load. */
  datatype LoadStatus = NoError | ErrUnknownFormat

  /** The four dimension lengths of an SWW file. */
  datatype Dims = Dims(nVolumes: nat, nVertices: nat, nPoints: nat, nTimesteps: nat)

  // ---------------------------------------------------------------------------
  // Schema gate

  /** The four dimensions, when each is found and its length can be read. */
  function ReadDims(f: File): Option<Dims>
  {
    if VolumesDim !in f.dims || VerticesDim !in f.dims || PointsDim !in f.dims || TimestepsDim !in f.dims then
      None
    else if f.dims[VolumesDim].None? || f.dims[VerticesDim].None? || f.dims[PointsDim].None? || f.dims[TimestepsDim].None? then
      None
    else
      Some(Dims(f.dims[VolumesDim].value, f.dims[VerticesDim].value, f.dims[PointsDim].value, f.dims[TimestepsDim].value))
  }

  /** The six variables the loader cannot do without. */
  predicate HasRequiredVars(f: File)
  {
    XVar in f.vars && YVar in f.vars && ZVar in f.vars && VolumesVar in f.vars && TimeVar in f.vars && StageVar in f.vars
  }

  /** The four whole-variable reads of the mesh data succeed. */
  predicate MeshReadsSucceed(f: File)
    requires HasRequiredVars(f)
  {
    f.vars[XVar].readable && f.vars[YVar].readable && f.vars[ZVar].readable && f.vars[VolumesVar].readable
  }

  /**
   * The load produces a mesh exactly when the file opens, the four dimensions
   * resolve, elements are triangles, the six variables exist and the mesh data
   * can be read. Nothing else can make it fail.
   */
  predicate Loadable(file: Option<File>)
  {
    && file.Some?
    && ReadDims(file.value).Some?
    && ReadDims(file.value).value.nVertices == 3
    && HasRequiredVars(file.value)
    && MeshReadsSucceed(file.value)
  }

  /** Both momentum components exist, so a momentum dataset is produced. */
  predicate HasMomentum(f: File)
  {
    XMomentumVar in f.vars && YMomentumVar in f.vars
  }

  /** A variable the file has holds `n` values. */
  predicate Shaped(f: File, name: string, n: nat)
  {
    name in f.vars ==> Count(f.vars[name].values) == n
  }

  /** Every connectivity entry is the index of a node. */
  predicate IndexesNodes(volumes: seq<int>, nPoints: nat)
  {
    forall k :: 0 <= k < |volumes| ==> 0 <= volumes[k] < nPoints
  }

  /**
   * The file's variables have the shapes the SWW format declares for them, and
   * the connectivity only names existing nodes. The loader relies on both
   * without checking them: its buffers are sized from the dimensions, and it
   * indexes the node arrays with connectivity entries. Its loop counters and
   * the connectivity offsets `3*i+2` are C `int`s, so the counts must also fit
   * in `IntMax`.
   */
  predicate Conforms(f: File)
  {
    ReadDims(f).Some? ==>
      var d := ReadDims(f).value;
      && d.nPoints <= IntMax && 3 * d.nVolumes <= IntMax + 1 && d.nTimesteps <= IntMax
      && Shaped(f, XVar, d.nPoints)
      && Shaped(f, YVar, d.nPoints)
      && Shaped(f, ZVar, d.nPoints)
      && Shaped(f, VolumesVar, d.nVertices * d.nVolumes)
      && Shaped(f, TimeVar, d.nTimesteps)
      && Shaped(f, StageVar, d.nTimesteps * d.nPoints)
      && (HasMomentum(f) ==>
            Shaped(f, XMomentumVar, d.nTimesteps * d.nPoints) && Shaped(f, YMomentumVar, d.nTimesteps * d.nPoints))
      && (VolumesVar in f.vars ==> IndexesNodes(AsInts(f.vars[VolumesVar].values), d.nPoints))
  }

  /** The origin offset, 0 where the attribute is absent. */
  function XllCorner(f: File): real
  {
    GetAttFloat(f, "xllcorner", 0.0)
  }

  function YllCorner(f: File): real
  {
    GetAttFloat(f, "yllcorner", 0.0)
  }

  // ---------------------------------------------------------------------------
  // What a successful load produces

  /** Node `i` has id `i` and the file's coordinates shifted by the origin offset. */
  predicate NodesFrom(nodes: seq<Node>, px: seq<real>, py: seq<real>, xll: real, yll: real)
    requires |px| == |py|
  {
    |nodes| == |px| && forall i :: 0 <= i < |nodes| ==> nodes[i] == Node(i, px[i] + xll, py[i] + yll)
  }

  /** Element `i`: a triangle over the `i`-th triplet of the flat connectivity array. */
  function Triangle(volumes: seq<int>, i: nat): Element
    requires 3 * i + 3 <= |volumes|
  {
    Element(i, E3T, [volumes[3 * i], volumes[3 * i + 1], volumes[3 * i + 2]])
  }

  /** One triangle per triplet, in file order. */
  predicate ElementsFrom(elements: seq<Element>, volumes: seq<int>)
  {
    3 * |elements| == |volumes| && forall i :: 0 <= i < |elements| ==> elements[i] == Triangle(volumes, i)
  }

  /** An element has three nodes, each an index below `n`. */
  predicate InRange(e: Element, n: nat)
  {
    |e.p| == 3 && 0 <= e.p[0] < n && 0 <= e.p[1] < n && 0 <= e.p[2] < n
  }

  /** Every element of a mesh with `n` nodes refers to existing nodes. */
  predicate ElementsInRange(elements: seq<Element>, n: nat)
  {
    forall e :: 0 <= e < |elements| ==> InRange(elements[e], n)
  }

  /** The bed output: time 0, the elevations as read, every element active. */
  function BedOutput(z: seq<real>, nVolumes: nat): Output
  {
    Output(0.0, z, [], seq(nVolumes, _ => true))
  }

  /** Water depth at each node: stage minus bed elevation. */
  function Depth(stage: seq<real>, z: seq<real>): (d: seq<real>)
    requires |stage| == |z|
  {
    seq(|z|, j requires 0 <= j < |z| => stage[j] - z[j])
  }

  /** An element is wet when any of its three nodes is deeper than the threshold. */
  predicate Wet(depth: seq<real>, e: Element)
    requires InRange(e, |depth|)
  {
    depth[e.p[0]] > DepthThreshold || depth[e.p[1]] > DepthThreshold || depth[e.p[2]] > DepthThreshold
  }

  /** One flag per element, telling whether it is wet under `depth`. */
  predicate WetFlags(active: seq<bool>, depth: seq<real>, elements: seq<Element>)
  {
    |active| == |elements| && forall e :: 0 <= e < |elements| ==> InRange(elements[e], |depth|) && active[e] == Wet(depth, elements[e])
  }

  /** Seconds to hours. */
  function Hours(seconds: real): real
  {
    seconds / SecondsPerHour
  }

  /** The depth output for a timestep at `seconds` whose stage row is `stage`. */
  predicate IsDepthOutput(o: Output, seconds: real, stage: seq<real>, z: seq<real>, elements: seq<Element>)
    requires |stage| == |z|
  {
    o.time == Hours(seconds) && o.values == Depth(stage, z) && o.valuesV == [] && WetFlags(o.active, o.values, elements)
  }

  /** One depth output per timestep, in timestep order. */
  predicate IsDepthSeries(outputs: seq<Output>, times: seq<real>, stage: Var, z: seq<real>, elements: seq<Element>)
    requires Count(stage.values) == |times| * |z|
  {
    |outputs| == |times|
    && forall t :: 0 <= t < |times| ==> IsDepthOutput(outputs[t], times[t], Row(stage, t, |times|, |z|), z, elements)
  }

  /**
   * The momentum output for a timestep at `seconds`: the two components per
   * node as its vectors, their `length` as its values, and the wet/dry flags
   * `active` that the depth output of the same timestep holds.
   */
  predicate IsMomentumOutput(o: Output, seconds: real, active: seq<bool>, xs: seq<real>, ys: seq<real>, length: Vec2 -> real)
    requires |xs| == |ys|
  {
    && o.time == Hours(seconds)
    && o.active == active
    && |o.valuesV| == |xs| && |o.values| == |xs|
    && forall i :: 0 <= i < |xs| ==> o.valuesV[i] == Vec2(xs[i], ys[i]) && o.values[i] == length(o.valuesV[i])
  }

  /** One momentum output per depth output, in timestep order. */
  predicate IsMomentumSeries(outputs: seq<Output>, times: seq<real>, depth: seq<Output>, xmom: Var, ymom: Var, nPoints: nat,
                             length: Vec2 -> real)
    requires |depth| == |times|
    requires Count(xmom.values) == |times| * nPoints && Count(ymom.values) == |times| * nPoints
  {
    |outputs| == |times|
    && forall t :: 0 <= t < |times| ==>
         IsMomentumOutput(outputs[t], times[t], depth[t].active, Row(xmom, t, |times|, nPoints), Row(ymom, t, |times|, nPoints), length)
  }

  predicate IsBedDataSet(ds: DataSet, fileName: string, z: seq<real>, nVolumes: nat)
    reads ds
  {
    ds.fileName == fileName && ds.dsType == Bed && ds.name == "Bed Elevation" && !ds.timeVarying
    && ds.outputs == [BedOutput(z, nVolumes)]
  }

  predicate IsDepthDataSet(ds: DataSet, fileName: string, times: seq<real>, stage: Var, z: seq<real>, elements: seq<Element>)
    reads ds
    requires Count(stage.values) == |times| * |z|
  {
    ds.fileName == fileName && ds.dsType == Scalar && ds.name == "Depth" && ds.timeVarying
    && IsDepthSeries(ds.outputs, times, stage, z, elements)
  }

  predicate IsMomentumDataSet(mds: DataSet, fileName: string, times: seq<real>, depth: seq<Output>, xmom: Var, ymom: Var, nPoints: nat,
                              length: Vec2 -> real)
    reads mds
    requires |depth| == |times|
    requires Count(xmom.values) == |times| * nPoints && Count(ymom.values) == |times| * nPoints
  {
    mds.fileName == fileName && mds.dsType == Vector && mds.name == "Momentum" && mds.timeVarying
    && IsMomentumSeries(mds.outputs, times, depth, xmom, ymom, nPoints, length)
  }

  // ---------------------------------------------------------------------------
  // The loader

  /**
   * Nodes, elements and the bed output, filled as the loader fills them: one
   * pass over the points writes node `i` and bed value `i`, one pass over the
   * volumes writes element `i` from the `i`-th triplet.
   */
  method BuildGeometry(px: seq<real>, py: seq<real>, pz: seq<real>, volumes: seq<int>, nVolumes: nat, xll: real, yll: real)
    returns (nodes: seq<Node>, elements: seq<Element>, bed: Output)
    requires |px| == |py| == |pz|
    requires |volumes| == 3 * nVolumes
    ensures NodesFrom(nodes, px, py, xll, yll)
    ensures ElementsFrom(elements, volumes)
    ensures bed == BedOutput(pz, nVolumes)
  {
    var nPoints := |px|;
    // Output::init and the memset that marks every cell active
    var bedValues := new real[nPoints];
    var bedActive := new bool[nVolumes];
    forall e | 0 <= e < nVolumes {
      bedActive[e] := true;
    }

    var nodeArr := new Node[nPoints];
    for i := 0 to nPoints
      modifies nodeArr, bedValues
      invariant forall k :: 0 <= k < i ==> nodeArr[k] == Node(k, px[k] + xll, py[k] + yll)
      invariant forall k :: 0 <= k < i ==> bedValues[k] == pz[k]
    {
      nodeArr[i] := Node(i, px[i] + xll, py[i] + yll);
      bedValues[i] := pz[i];
    }

    var elementArr := new Element[nVolumes];
    for i := 0 to nVolumes
      modifies elementArr
      invariant forall k :: 0 <= k < i ==> elementArr[k] == Triangle(volumes, k)
    {
      elementArr[i] := Element(i, E3T, [volumes[3 * i + 0], volumes[3 * i + 1], volumes[3 * i + 2]]);
    }

    nodes, elements := nodeArr[..], elementArr[..];
    assert bedActive[..] == seq(nVolumes, _ => true);
    bed := Output(0.0, bedValues[..], [], bedActive[..]);
  }

  /**
   * One depth output: the stage row for timestep `t` is read into the output's
   * value buffer, the bed elevation is subtracted in place, and each element's
   * flag is set from the depths at its three nodes.
   */
  method DecodeDepthStep(stage: Var, t: nat, nTimesteps: nat, seconds: real, elev: seq<real>, elements: seq<Element>)
    returns (o: Output)
    requires t < nTimesteps && Count(stage.values) == nTimesteps * |elev|
    requires ElementsInRange(elements, |elev|)
    ensures IsDepthOutput(o, seconds, Row(stage, t, nTimesteps, |elev|), elev, elements)
  {
    var nPoints := |elev|;
    var values := new real[nPoints];
    var active := new bool[|elements|];
    GetVarsFloat(stage, t, nTimesteps, values);
    ghost var row := values[..];

    for j := 0 to nPoints
      modifies values
      invariant forall k :: 0 <= k < j ==> values[k] == row[k] - elev[k]
      invariant forall k :: j <= k < nPoints ==> values[k] == row[k]
    {
      values[j] := values[j] - elev[j];
    }
    assert values[..] == Depth(row, elev);

    for e := 0 to |elements|
      modifies active
      invariant forall k :: 0 <= k < e ==> active[k] == Wet(values[..], elements[k])
    {
      var elem := elements[e];
      var v0 := values[elem.p[0]];
      var v1 := values[elem.p[1]];
      var v2 := values[elem.p[2]];
      active[e] := v0 > DepthThreshold || v1 > DepthThreshold || v2 > DepthThreshold;
    }

    o := Output(seconds / SecondsPerHour, values[..], [], active[..]);
  }

  /** The "Depth" dataset: one output per timestep, appended in timestep order. */
  method LoadDepthDataSet(fileName: string, times: seq<real>, stage: Var, elev: seq<real>, elements: seq<Element>)
    returns (ds: DataSet)
    requires Count(stage.values) == |times| * |elev|
    requires ElementsInRange(elements, |elev|)
    ensures fresh(ds)
    ensures IsDepthDataSet(ds, fileName, times, stage, elev, elements)
  {
    ds := new DataSet(fileName);
    ds.dsType := Scalar;
    ds.name := "Depth";
    ds.timeVarying := true;

    for t := 0 to |times|
      modifies ds
      invariant ds.fileName == fileName && ds.dsType == Scalar && ds.name == "Depth" && ds.timeVarying
      invariant |ds.outputs| == t
      invariant forall k :: 0 <= k < t ==> IsDepthOutput(ds.outputs[k], times[k], Row(stage, k, |times|, |elev|), elev, elements)
    {
      var to := DecodeDepthStep(stage, t, |times|, times[t], elev, elements);
      ds.AddOutput(to);
    }
  }

  /**
   * One momentum output from the two component rows of a timestep: each node's
   * vector and its length, the timestep's time in hours, and a copy of the
   * depth output's wet/dry flags.
   */
  method DecodeMomentumStep(valuesX: seq<real>, valuesY: seq<real>, seconds: real, active: seq<bool>, length: Vec2 -> real)
    returns (o: Output)
    requires |valuesX| == |valuesY|
    ensures IsMomentumOutput(o, seconds, active, valuesX, valuesY, length)
  {
    var nPoints := |valuesX|;
    var vectors := new Vec2[nPoints];
    var magnitudes := new real[nPoints];
    for i := 0 to nPoints
      invariant forall k :: 0 <= k < i ==> vectors[k] == Vec2(valuesX[k], valuesY[k]) && magnitudes[k] == length(vectors[k])
    {
      vectors[i] := Vec2(valuesX[i], valuesY[i]);
      magnitudes[i] := length(vectors[i]);
    }
    o := Output(seconds / SecondsPerHour, magnitudes[..], vectors[..], active);
  }

  /**
   * The "Momentum" dataset. The two component buffers are allocated once and
   * refilled for every timestep; each output takes the wet/dry flags of the
   * depth output of its timestep.
   */
  method LoadMomentumDataSet(fileName: string, times: seq<real>, depth: seq<Output>, xmom: Var, ymom: Var, nPoints: nat,
                             length: Vec2 -> real)
    returns (mds: DataSet)
    requires |depth| == |times|
    requires Count(xmom.values) == |times| * nPoints && Count(ymom.values) == |times| * nPoints
    ensures fresh(mds)
    ensures IsMomentumDataSet(mds, fileName, times, depth, xmom, ymom, nPoints, length)
  {
    mds := new DataSet(fileName);
    mds.dsType := Vector;
    mds.name := "Momentum";
    mds.timeVarying := true;

    var valuesX := new real[nPoints];
    var valuesY := new real[nPoints];
    for t := 0 to |times|
      modifies mds, valuesX, valuesY
      invariant mds.fileName == fileName && mds.dsType == Vector && mds.name == "Momentum" && mds.timeVarying
      invariant |mds.outputs| == t
      invariant forall k :: 0 <= k < t ==>
                  IsMomentumOutput(mds.outputs[k], times[k], depth[k].active, Row(xmom, k, |times|, nPoints), Row(ymom, k, |times|, nPoints), length)
    {
      GetVarsFloat(xmom, t, |times|, valuesX);
      GetVarsFloat(ymom, t, |times|, valuesY);

      var mto := DecodeMomentumStep(valuesX[..], valuesY[..], times[t], depth[t].active, length);
      mds.AddOutput(mto);
    }
  }

  /**
   * loadSWW. `file` is None when the container cannot be opened; `length` is
   * the vector length the output uses for momentum magnitudes.
   */
  method LoadSWW(fileName: string, file: Option<File>, length: Vec2 -> real) returns (mesh: Mesh?, status: LoadStatus)
    requires Loadable(file) ==> Conforms(file.value)
    ensures (mesh == null) == (status == ErrUnknownFormat)
    ensures mesh != null ==> fresh(mesh) && forall k :: 0 <= k < |mesh.dataSets| ==> fresh(mesh.dataSets[k])
    ensures (mesh == null) == !Loadable(file)
    ensures mesh != null ==>
              var f := file.value;
              var px := AsReals(f.vars[XVar].values);
              var py := AsReals(f.vars[YVar].values);
              && |px| == |py|
              && NodesFrom(mesh.nodes, px, py, XllCorner(f), YllCorner(f))
              && ElementsFrom(mesh.elements, AsInts(f.vars[VolumesVar].values))
              && ElementsInRange(mesh.elements, |mesh.nodes|)
    ensures mesh != null ==>
              var f := file.value;
              && |mesh.dataSets| == (if HasMomentum(f) then 3 else 2)
              && IsBedDataSet(mesh.dataSets[0], fileName, AsReals(f.vars[ZVar].values), |mesh.elements|)
    ensures mesh != null ==>
              var f := file.value;
              var times := AsReals(f.vars[TimeVar].values);
              var z := AsReals(f.vars[ZVar].values);
              && |mesh.dataSets| >= 2
              && Count(f.vars[StageVar].values) == |times| * |z|
              && IsDepthDataSet(mesh.dataSets[1], fileName, times, f.vars[StageVar], z, mesh.elements)
    ensures mesh != null && HasMomentum(file.value) ==>
              var f := file.value;
              var times := AsReals(f.vars[TimeVar].values);
              var depth := mesh.dataSets[1].outputs;
              var nPoints := |mesh.nodes|;
              && |mesh.dataSets| == 3
              && |depth| == |times|
              && Count(f.vars[XMomentumVar].values) == |times| * nPoints
              && Count(f.vars[YMomentumVar].values) == |times| * nPoints
              && IsMomentumDataSet(mesh.dataSets[2], fileName, times, depth, f.vars[XMomentumVar], f.vars[YMomentumVar], nPoints, length)
  {
    status := NoError;
    if file.None? {
      return null, ErrUnknownFormat;
    }
    var f := file.value;

    var dims := ReadDims(f);
    if dims.None? {
      return null, ErrUnknownFormat;
    }
    var d := dims.value;
    if d.nVertices != 3 {
      return null, ErrUnknownFormat;
    }
    if !HasRequiredVars(f) {
      return null, ErrUnknownFormat;
    }

    var px := GetVarFloat(f.vars[XVar]);
    var py := GetVarFloat(f.vars[YVar]);
    var pz := GetVarFloat(f.vars[ZVar]);
    var pvolumes := GetVarInt(f.vars[VolumesVar]);
    if px.None? || py.None? || pz.None? || pvolumes.None? {
      return null, ErrUnknownFormat;
    }

    var xLLcorner := GetAttFloat(f, "xllcorner", 0.0);
    var yLLcorner := GetAttFloat(f, "yllcorner", 0.0);

    var nodes, elements, bed := BuildGeometry(px.value, py.value, pz.value, pvolumes.value, d.nVolumes, xLLcorner, yLLcorner);
    ElementsIndexNodes(elements, pvolumes.value, d.nPoints);
    mesh := new Mesh(nodes, elements);

    var bedDs := new DataSet(fileName);
    bedDs.dsType := Bed;
    bedDs.name := "Bed Elevation";
    bedDs.timeVarying := false;
    bedDs.AddOutput(bed);
    mesh.AddDataSet(bedDs);

    // the status of the time read is not checked
    var times := AsReals(f.vars[TimeVar].values);
    var ds := LoadDepthDataSet(fileName, times, f.vars[StageVar], bed.values, elements);
    mesh.AddDataSet(ds);

    if XMomentumVar in f.vars && YMomentumVar in f.vars {
      var mds := LoadMomentumDataSet(fileName, times, ds.outputs, f.vars[XMomentumVar], f.vars[YMomentumVar], d.nPoints, length);
      mesh.AddDataSet(mds);
    }
  }

  // ---------------------------------------------------------------------------
  // Properties

  /** Triangles built from connectivity that names only existing nodes stay within the mesh. */
  lemma ElementsIndexNodes(elements: seq<Element>, volumes: seq<int>, nPoints: nat)
    requires ElementsFrom(elements, volumes)
    requires IndexesNodes(volumes, nPoints)
    ensures ElementsInRange(elements, nPoints)
  {
    forall e | 0 <= e < |elements|
      ensures InRange(elements[e], nPoints)
    {
      assert elements[e] == Triangle(volumes, e);
    }
  }

  /** The node lists of the elements, one after the other. */
  function Flatten(elements: seq<Element>): seq<int>
  {
    if elements == [] then [] else elements[0].p + Flatten(elements[1..])
  }

  /** Element building neither loses, adds nor reorders a connectivity entry. */
  lemma {:induction false} ConnectivityRoundTrip(elements: seq<Element>, volumes: seq<int>)
    requires 3 * |elements| == |volumes|
    requires forall i :: 0 <= i < |elements| ==> elements[i].p == volumes[3 * i .. 3 * i + 3]
    ensures Flatten(elements) == volumes
  {
    if elements != [] {
      var rest := volumes[3..];
      forall i | 0 <= i < |elements[1..]|
        ensures elements[1..][i].p == rest[3 * i .. 3 * i + 3]
      {
        assert elements[1..][i] == elements[i + 1];
        assert rest[3 * i .. 3 * i + 3] == volumes[3 * (i + 1) .. 3 * (i + 1) + 3];
      }
      ConnectivityRoundTrip(elements[1..], rest);
      assert elements[0].p == volumes[..3];
      assert volumes == volumes[..3] + rest;
    }
  }

  /** The elements of a load, read back in order, give the file's connectivity array. */
  lemma ElementsRoundTrip(elements: seq<Element>, volumes: seq<int>)
    requires ElementsFrom(elements, volumes)
    ensures Flatten(elements) == volumes
  {
    forall i | 0 <= i < |elements|
      ensures elements[i].p == volumes[3 * i .. 3 * i + 3]
    {
      assert elements[i] == Triangle(volumes, i);
    }
    ConnectivityRoundTrip(elements, volumes);
  }

  /** Adding the bed elevation back to a depth gives the stage that was read. */
  lemma DepthRecoversStage(stage: seq<real>, z: seq<real>)
    requires |stage| == |z|
    ensures |Depth(stage, z)| == |z|
    ensures forall j :: 0 <= j < |z| ==> Depth(stage, z)[j] + z[j] == stage[j]
  {
  }

  /** An element is wet exactly when one of its nodes is deeper than the threshold. */
  lemma WetIffSomeNodeWet(depth: seq<real>, e: Element)
    requires InRange(e, |depth|)
    ensures Wet(depth, e) <==> exists k :: 0 <= k < 3 && depth[e.p[k]] > DepthThreshold
  {
    if Wet(depth, e) {
      if depth[e.p[0]] > DepthThreshold {
        assert 0 <= 0 < 3 && depth[e.p[0]] > DepthThreshold;
      } else if depth[e.p[1]] > DepthThreshold {
        assert 0 <= 1 < 3 && depth[e.p[1]] > DepthThreshold;
      } else {
        assert 0 <= 2 < 3 && depth[e.p[2]] > DepthThreshold;
      }
    }
  }

  /** Where the water surface lies within the threshold of the bed everywhere, no element is wet. */
  lemma ShallowWaterIsDry(stage: seq<real>, z: seq<real>, elements: seq<Element>, active: seq<bool>)
    requires |stage| == |z|
    requires forall j :: 0 <= j < |z| ==> stage[j] <= z[j] + DepthThreshold
    requires WetFlags(active, Depth(stage, z), elements)
    ensures forall e :: 0 <= e < |active| ==> !active[e]
  {
  }

  /** A higher water surface never dries an element. */
  lemma RisingStageKeepsWet(low: seq<real>, high: seq<real>, z: seq<real>, e: Element)
    requires |low| == |high| == |z|
    requires forall j :: 0 <= j < |z| ==> low[j] <= high[j]
    requires InRange(e, |z|)
    ensures Wet(Depth(low, z), e) ==> Wet(Depth(high, z), e)
  {
  }

  /** Outputs follow the file's time axis: if it does not decrease, neither do output times. */
  lemma DepthTimesOrdered(outputs: seq<Output>, times: seq<real>, stage: Var, z: seq<real>, elements: seq<Element>)
    requires Count(stage.values) == |times| * |z|
    requires IsDepthSeries(outputs, times, stage, z, elements)
    requires forall i, j :: 0 <= i < j < |times| ==> times[i] <= times[j]
    ensures forall i, j :: 0 <= i < j < |outputs| ==> outputs[i].time <= outputs[j].time
  {
  }

  /**
   * Momentum output `t` has the time of depth output `t`, and its wet/dry
   * flags are those of the depth at timestep `t`: wetness comes from depth,
   * never from momentum.
   */
  lemma MomentumFollowsDepth(mds: DataSet, ds: DataSet, fileName: string, times: seq<real>, stage: Var, z: seq<real>,
                             elements: seq<Element>, xmom: Var, ymom: Var, length: Vec2 -> real)
    requires Count(stage.values) == |times| * |z|
    requires IsDepthDataSet(ds, fileName, times, stage, z, elements)
    requires Count(xmom.values) == |times| * |z| && Count(ymom.values) == |times| * |z|
    requires IsMomentumDataSet(mds, fileName, times, ds.outputs, xmom, ymom, |z|, length)
    ensures |mds.outputs| == |ds.outputs| == |times|
    ensures forall t :: 0 <= t < |times| ==>
              && mds.outputs[t].time == ds.outputs[t].time
              && mds.outputs[t].active == ds.outputs[t].active
              && WetFlags(mds.outputs[t].active, Depth(Row(stage, t, |times|, |z|), z), elements)
  {
  }

  /** Neither momentum variable is needed for a file to load. */
  lemma MomentumIsOptional(f: File)
    ensures Loadable(Some(f)) == Loadable(Some(f.(vars := f.vars - {XMomentumVar, YMomentumVar})))
  {
  }

  /**
   * Two triangles [0,1,2] and [0,2,3] over a flat bed, one timestep: nodes 0
   * and 1 are 1 mm deep, nodes 2 and 3 0.05 mm. Both triangles touch a node
   * above the threshold, so both are wet.
   */
  lemma TwoTriangleScenario()
    ensures
      var d := Depth([0.001, 0.001, 0.00005, 0.00005], [0.0, 0.0, 0.0, 0.0]);
      && d == [0.001, 0.001, 0.00005, 0.00005]
      && Wet(d, Triangle([0, 1, 2, 0, 2, 3], 0))
      && Wet(d, Triangle([0, 1, 2, 0, 2, 3], 1))
      && !(d[2] > DepthThreshold) && !(d[3] > DepthThreshold)
  {
  }
}
