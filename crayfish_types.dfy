/**
 * The enumerations of crayfish_viewer_global.h that the SWW loader uses:
 * the topology tag of an element and the kind of a dataset.
 */
module CrayfishTypes {

  /** ElementType::Enum: the shape of a mesh element. */
  datatype ElementType = Undefined | E4Q | E3T

  /** DataSetType::Enum: how a dataset is drawn. */
  datatype DataSetType = Bed | Scalar | Vector
}
