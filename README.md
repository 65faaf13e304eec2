# SWW loader model

A Dafny model of `loadSWW`, the loader that decodes an SWW file into a Crayfish
mesh. An SWW file is a netCDF container written by a hydrodynamic simulator.
It holds a triangular mesh and the water surface ("stage") per node and
timestep, and optionally the two momentum components. The loader does five
things in order:

1. **Schema gate.** The four dimensions `number_of_volumes`,
   `number_of_vertices`, `number_of_points` and `number_of_timesteps` must
   resolve. `number_of_vertices` must be 3. The six variables `x`, `y`, `z`,
   `volumes`, `time` and `stage` must exist. The four mesh reads must succeed.
   If any of this fails, the load returns no mesh and reports
   `Err_UnknownFormat`.
2. **Geometry.** Node `i` is `(x[i] + xllcorner, y[i] + yllcorner)`. Each offset
   is 0 when its attribute is absent. Element `i` is a triangle over the
   `i`-th triplet of the flat `volumes` array.
3. **Bed elevation.** One static output holding `z` unchanged, with every
   element active.
4. **Depth series.** For each timestep, the output holds the time in hours,
   the depth `stage - z` per node, and a wet flag per element. An element is
   wet when any of its three nodes is deeper than 0.0001 m.
5. **Momentum series.** This exists only when both `xmomentum` and `ymomentum`
   exist. Each output holds the per-node vectors and their lengths. It reuses
   the depth output's time and wet flags for the same timestep.

Files:

- `wrappers.dfy`: `Option`.
- `crayfish_types.dfy`: the `ElementType` and `DataSetType` enumerations.
- `netcdf.dfy`: the container as a value (dimensions, variables, global
  attributes) and the reads the loader makes.
- `crayfish_mesh.dfy`: the `Node`, `Element` and `Output` records, and the
  `DataSet` and `Mesh` classes, which only grow by appending.
- `sww.dfy`: the loader. It holds the specification predicates, the methods
  that fill arrays in loops as the loader does, and the lemmas.

The specification predicates are in `sww.dfy`:

- `Loadable` states the whole schema gate.
- `NodesFrom`, `ElementsFrom` and `BedOutput` state the geometry and the bed
  output.
- `Depth`, `Wet`, `WetFlags` and `Hours` state the per-timestep formulas.
- `IsDepthDataSet` and `IsMomentumDataSet` state the two series.

Each method is proved against these predicates. The lemmas prove properties
of the predicates.

The loader ignores the status of the `time`, `stage`, `xmomentum` and
`ymomentum` reads (corelib/crayfish_sww.cpp lines 169, 186, 231-232). Only the
four mesh reads (lines 102-105) can fail the load.

## Model

| member | source | states |
|---|---|---|
| `Sww.LoadSWW` | corelib/crayfish_sww.cpp:40-254 | The status is `ErrUnknownFormat` exactly when no mesh is returned. No mesh is returned exactly when `Loadable` fails: the file does not open, a dimension is missing or its length cannot be read, `number_of_vertices` is not 3, one of the six variables is missing, or a mesh read fails. Missing momentum variables are not a failure. On success the mesh and its datasets are newly allocated, and: the nodes and elements are those of `NodesFrom` and `ElementsFrom`, with offsets defaulting to 0. Every element refers to existing nodes. The datasets are Bed, Depth and then Momentum, and Momentum is present exactly when both momentum variables exist. Each dataset has the name, type, time-varying flag, file name and outputs its predicate gives. |
| `Sww.BuildGeometry` | corelib/crayfish_sww.cpp:114-146 | There are exactly `nPoints` nodes. Node `i` has id `i` and coordinates `(px[i] + xll, py[i] + yll)`. There are exactly `nVolumes` elements. Element `i` has id `i`, type `E3T` and nodes `volumes[3i..3i+3]`, in file order. The bed output has time 0, values equal to `z` unchanged, no vectors, and one true flag per element. |
| `Sww.DecodeDepthStep` | corelib/crayfish_sww.cpp:174-199 | The output's time is the raw time divided by 3600. Its values are `stage[t][j] - z[j]` for every node `j`. It has no vectors. Its flag for element `e` is true iff the depth at one of the element's three nodes exceeds 0.0001. |
| `Sww.LoadDepthDataSet` | corelib/crayfish_sww.cpp:163-205 | The dataset is new. It is "Depth", Scalar and time-varying. It holds exactly one output per timestep, and output `t` is the depth output of timestep `t`. |
| `Sww.DecodeMomentumStep` | corelib/crayfish_sww.cpp:219-241 | Node `i` gets the vector `(xmom[i], ymom[i])` and the value `length` of that vector. The time is the raw time divided by 3600. The wet flags are the given depth flags, unchanged. |
| `Sww.LoadMomentumDataSet` | corelib/crayfish_sww.cpp:207-249 | The dataset is new. It is "Momentum", Vector and time-varying. It holds one output per timestep, and output `t` is built from row `t` of both components. Output `t` carries the wet flags of depth output `t`. The component buffers are reused across timesteps. |
| `Sww.ElementsIndexNodes` | corelib/crayfish_sww.cpp:192-198 | Suppose the connectivity names only existing nodes. Then every element's three node indices lie in `[0, nPoints)`. This is the precondition under which the per-element reads of lines 195-197 stay inside the node array. |
| `Sww.ConnectivityRoundTrip` | corelib/crayfish_sww.cpp:143-145 | Suppose element `i` holds `volumes[3i..3i+3]`. Then concatenating the node lists of all elements gives back `volumes`. Proved by induction over the elements. |
| `Sww.ElementsRoundTrip` | corelib/crayfish_sww.cpp:136-146 | Reading back the elements a load builds, in order, gives exactly the file's connectivity array. Nothing is lost, added or reordered. |
| `Sww.DepthRecoversStage` | corelib/crayfish_sww.cpp:186-189 | Adding the bed elevation back to each depth gives the stage that was read. |
| `Sww.WetIffSomeNodeWet` | corelib/crayfish_sww.cpp:195-198 | An element is wet if and only if some node `k` among its three has a depth above the threshold. |
| `Sww.ShallowWaterIsDry` | corelib/crayfish_sww.cpp:34-37 | Suppose the stage is within the threshold of the bed at every node. Then no element is active: the threshold absorbs the residue of water at rest. |
| `Sww.RisingStageKeepsWet` | corelib/crayfish_sww.cpp:198 | Over the same bed, a stage that is higher at every node never turns a wet element dry. |
| `Sww.DepthTimesOrdered` | corelib/crayfish_sww.cpp:172-176 | Depth outputs come in timestep order. If the file's time axis never decreases, neither do the output times. |
| `Sww.MomentumFollowsDepth` | corelib/crayfish_sww.cpp:221-222 | Momentum output `t` has the same time and the same wet flags as depth output `t`. Those flags are the wetness of the depth at timestep `t`. |
| `Sww.MomentumIsOptional` | corelib/crayfish_sww.cpp:207-209 | Removing `xmomentum` and `ymomentum` from a file does not change whether it loads. |
| `Sww.TwoTriangleScenario` | corelib/crayfish_sww.cpp:188-199 | Take triangles [0,1,2] and [0,2,3] over a flat bed, with stage 1 mm at nodes 0 and 1 and 0.05 mm at nodes 2 and 3. The depths equal the stage, and both triangles are wet because each touches a node above the threshold. |
| `NetCdf.Row` | corelib/crayfish_sww.cpp:180-186 | The strided read of timestep `t` yields exactly `nPoints` values: row `t` of the `[nTimesteps, nPoints]` variable. |
| `NetCdf.GetVarsFloat` | corelib/crayfish_sww.cpp:231-232 | After the read, the buffer holds row `t` of the variable and nothing else. |
| `NetCdf.RowFits` | corelib/crayfish_sww.cpp:180-185 | Row `t < nTimesteps` of an `[nTimesteps, n]` array ends within its `nTimesteps * n` values. |
| `CrayfishMesh.DataSet.AddOutput` | corelib/crayfish_sww.cpp:201 | The output is appended at the end. Type, name and time-varying flag are unchanged. |
| `CrayfishMesh.Mesh.AddDataSet` | corelib/crayfish_sww.cpp:159 | The dataset is appended at the end of the mesh's list. |
| `CrayfishMesh.Mesh.constructor` | corelib/crayfish_sww.cpp:150 | The mesh holds the given nodes and elements and has no datasets yet. |
| `CrayfishMesh.DataSet.constructor` | corelib/crayfish_sww.cpp:153 | The dataset records its file name and has no outputs yet. |

## Left out

- The netCDF library is not modelled. The container is a value: its
  dimensions, variables, global attributes and whether each whole-variable
  read succeeds. A file that cannot be opened is `None`. Closing the handle
  has no observable effect here.
- The reads of `time`, `stage`, `xmomentum` and `ymomentum` ignore their
  status in the source. The model gives them the variable's values. It does
  not capture what a failed read would leave in the buffer.
- `Sww.LoadSWW` requires `Conforms`, but only of files that pass the schema
  gate; any other file may be passed and is rejected. Every variable the
  loader reads must have the shape its dimensions declare; the momentum
  variables only when both exist. Every connectivity entry must index an
  existing node. The counts must fit the C `int` the loader counts with:
  `number_of_points` and `number_of_timesteps` at most `IntMax`
  (2147483647), and `3 * number_of_volumes` at most `IntMax + 1`, so that
  `3*i+2` does not overflow. The loader checks none of this: it sizes
  buffers from the dimensions, counts with `int`, and indexes node arrays with
  raw connectivity entries. This is a condition on the input, not a promise
  the code makes.
- Floating point is modelled as `real`. Single-precision rounding of
  coordinates, depths and the time division is not captured.
- `Sww.DecodeMomentumStep`: the vector length is a function parameter
  `length`, because the magnitude class is not part of this model. The model
  does not state that it is the Euclidean norm.
- `DataSet::updateZRange` is not modelled. Its value range belongs to the
  dataset class, which is not part of this model.
- `Output::init` internals are not modelled. The model allocates arrays of the
  right lengths.
- Setters, ownership and status handling are outside the model:
  - the dataset setters are field assignments;
  - heap ownership (`new`, `delete[]`, `addOutput` taking ownership) is not
    modelled;
  - `qDebug` logging and UTF-8 path conversion are not modelled;
  - a null `status` pointer is not modelled; the status is always returned.
- The C++ loops count with `int` against `size_t` lengths, and connectivity is
  read as `int` and then reinterpreted as `unsigned`. `Conforms` bounds the
  counts by `IntMax` and the entries to `[0, number_of_points)`, so neither
  the overflow nor the reinterpretation of a negative entry is modelled.
- Outputs are values built from the arrays the loader fills. The model does
  not capture that an Output object stays mutable after it is appended.
- `VectorLengthMethod` from the same header has no behaviour in the loader
  and is not modelled.
