/** Types shared by the graph interface and the DNNL backend: logical tensors
    and the status codes the graph API returns. */
module GraphTypes {

  /** How a logical tensor's memory is laid out. */
  datatype LayoutType = UndefLayout | AnyLayout | Strided | Opaque

  /** A logical tensor: an id, an element type code, its dims and its layout.
      `layoutId` names an opaque layout; the strides of a strided layout are
      not modelled. Two logical tensors are equal when all fields agree. */
  datatype LogicalTensor = LogicalTensor(
    id: nat,
    dataType: nat,
    dims: seq<int>,
    layoutType: LayoutType,
    layoutId: int)

  datatype Status = Success | InvalidArgument | InvalidGraph
}
