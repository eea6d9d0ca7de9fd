# oneDNN Graph core, modelled in Dafny

This project models three parts of oneDNN (the oneAPI Deep Neural Network Library) and its graph API.

**Register and offset planning of the brdgmm kernel.** The batch-reduce depthwise GEMM JIT kernel (`jit_brdgmm_kernel_base_t`) plans its vector register file and its memory offsets before it emits any code. The plan is:

- how many auxiliary vector registers a configuration reserves;
- when the fast VNNI int8 path applies;
- where the A and B data registers sit;
- which register holds each accumulator of an `m_blocks x n_blocks` tile;
- where temporaries go;
- how many lanes a vector covers at the N tail;
- the byte offsets of A, B, C, D, bias, scales and compensation;
- the fixed stack-slot layout.

**Shape and axis helpers of the DNNL graph backend.** These are:

- the default plain format tag of a rank;
- dilation normalisation;
- the group split and merge of a dims vector;
- prepending leading ones;
- the axes vectors built for `permute_axes`: NXC to NCX, NCX to NXC, XIO to OIX, OIX to XIO, swapping the last two axes, and `transpose`;
- the shape-and-layout propagation rule between two logical tensors.

**Graph bookkeeping of the graph interface.** This covers:

- the logical-tensor id consistency check;
- `build_graph`, which links every op input to the producer of its tensor id, with one shared producer-less value per unproduced id;
- the clustering step of `get_ordered_partitions`;
- `rewrite`, which fuses each cluster into one Wildcard op;
- `deep_copy`.

Files:

- `graph_types.dfy`: logical tensors, layout types and status codes.
- `wrappers.dfy`: `Option`.
- `arith.dfy`: small arithmetic lemmas.
- `brdgmm_kernel.dfy`: module `BrdgmmKernel`, pure functions over a kernel configuration.
- `dnnl_common.dfy`: module `DnnlCommon`. The step-by-step axis builders are methods. The other helpers are functions with lemmas about them.
- `graph.dfy`: module `Graphs`, with the op and value stores and the `Graph` class holding `ops`, `opNodes`, `values`, `isBuilt` and `nextOpId`.
- `partitions.dfy`: module `Partitions`, the clustering.
- `rewrite.dfy`: module `Rewriting`, the fusion of patterns.
- `deep_copy.dfy`: module `DeepCopy`.

Pointers to ops and values are replaced by natural-number handles into the two maps `opNodes` and `values`. A value lists its producer as an optional (op, offset) port and its consumers as a sequence of ports. `deep_copy` returns its copies in a fresh handle space: copied op `k` is position `k` of the result, and copied value `w` is position `w`.

## Model

| member | source | states |
|---|---|---|
| BrdgmmKernel.IsFastVnniInt8 | src/cpu/x64/brgemm/jit_brdgmm_kernel.hpp:44-47 | The fast path holds exactly for dgmm int8 on avx512_core_vnni with no N tail, and only on a superset of avx512_core. |
| BrdgmmKernel.AuxRoles | src/cpu/x64/brgemm/jit_brdgmm_kernel.hpp:49-65 | Each auxiliary role is reserved exactly under its condition, and no role twice. Permute table iff fast VNNI int8. Shift iff s8s8 compensation. Zero-point compensation iff A has a zero point. Zero-point broadcast iff also avx2_vnni(_2). Sum-scale broadcast iff there is no zero point and there is a sum with a scale other than 1 below avx512_core. |
| BrdgmmKernel.GetAuxVmmCount | src/cpu/x64/brgemm/jit_brdgmm_kernel.hpp:49-65 | The count is the number of reserved roles, is at most 3, and is 0 exactly when no condition holds. |
| BrdgmmKernel.VnniSubstep | src/cpu/x64/brgemm/jit_brdgmm_kernel.hpp:190-192 | The substep is 1 or 2, and 2 exactly for xf16 on avx2_vnni_2. |
| BrdgmmKernel.VmmA | src/cpu/x64/brgemm/jit_brdgmm_kernel.hpp:202-216 | The A register sits right after the auxiliary registers. |
| BrdgmmKernel.GetVmmBaseIdx | src/cpu/x64/brgemm/jit_brdgmm_kernel.hpp:216 | The base index is the number of reserved auxiliary roles, so at most 3. |
| BrdgmmKernel.VmmB | src/cpu/x64/brgemm/jit_brdgmm_kernel.hpp:203-205 | B register `bi` is A + bi exactly when the data is f32 and the ISA is a superset of avx512_core (B is then read by the FMA from memory), and A + bi + 1 exactly otherwise. |
| BrdgmmKernel.Accm | src/cpu/x64/brgemm/jit_brdgmm_kernel.hpp:206-215 | Under the range asserts of the generator and the model's own bound vnni_idx < substep, every accumulator lies in [max_vmms - m_blocks*n_blocks*substep, max_vmms) and above B register 0. |
| BrdgmmKernel.AccmInjective | src/cpu/x64/brgemm/jit_brdgmm_kernel.hpp:209-212 | Distinct (m, n, vnni_idx) of a tile get distinct accumulators. |
| BrdgmmKernel.AccmCoords | src/cpu/x64/brgemm/jit_brdgmm_kernel.hpp:209-212 | Every register of the tile's range decodes to in-range tile coordinates. |
| BrdgmmKernel.AccmOnto | src/cpu/x64/brgemm/jit_brdgmm_kernel.hpp:209-212 | The decoded coordinates map back to the register, so the accumulator map is a bijection onto the range. |
| BrdgmmKernel.VmmTmp | src/cpu/x64/brgemm/jit_brdgmm_kernel.hpp:237-242 | Under the generator's assert, a temporary lies below the full-size accumulator tile, and it is at least 1 when register 0 holds the permute table. |
| BrdgmmKernel.VmmTmpDecreasing | src/cpu/x64/brgemm/jit_brdgmm_kernel.hpp:237-242 | Temporaries move down as i grows. |
| BrdgmmKernel.VmmTmpBelowAccm | src/cpu/x64/brgemm/jit_brdgmm_kernel.hpp:206-242 | No temporary collides with an accumulator of any fitting tile. |
| BrdgmmKernel.TailLength | src/cpu/x64/brgemm/jit_brdgmm_kernel.hpp:183-199 | The tail length is below simd_w and equals the N tail when that is already below simd_w. When the last N block has a tail, the last vector of the tail covers exactly tail_length lanes if it is non-zero, and a full simd_w otherwise. |
| BrdgmmKernel.GetSubstepSimd | src/cpu/x64/brgemm/jit_brdgmm_kernel.hpp:193-201 | The result is never above simd_w, and it is simd_w outside the last block of a tail tile. On that block, vector v_i stays inside n_block1_tail. It is full while the tail has room and positive while any lane remains. |
| BrdgmmKernel.TailLanesCoverTail | src/cpu/x64/brgemm/jit_brdgmm_kernel.hpp:193-201 | The substep widths of the tail block's vectors add up to exactly n_block1_tail. |
| BrdgmmKernel.TailLanesFull | src/cpu/x64/brgemm/jit_brdgmm_kernel.hpp:193-201 | Vectors that fit wholly inside the tail each cover simd_w lanes. |
| BrdgmmKernel.AOffset | src/cpu/x64/brgemm/jit_brdgmm_kernel.hpp:284-286 | The A offset is a whole number of A elements. RowStep, BlockStep and OffsetsStartAtZero state where it lies. |
| BrdgmmKernel.BOffset | src/cpu/x64/brgemm/jit_brdgmm_kernel.hpp:287 | The B offset is a whole number of B elements. BlockStep and OffsetsStartAtZero state where it lies. |
| BrdgmmKernel.COffset | src/cpu/x64/brgemm/jit_brdgmm_kernel.hpp:288-290 | The C offset is a whole number of C elements. RowStep, BlockStep and VectorStep give its steps, and COffsetsDisjoint shows distinct vectors do not overlap. |
| BrdgmmKernel.DOffset | src/cpu/x64/brgemm/jit_brdgmm_kernel.hpp:291-293 | The D offset is a whole number of D elements. RowStep, BlockStep and VectorStep give its steps, and DOffsetsDisjoint shows distinct vectors do not overlap. |
| BrdgmmKernel.BiasOffset | src/cpu/x64/brgemm/jit_brdgmm_kernel.hpp:294-296 | The bias offset is a whole number of bias elements. BlockStep and VectorStep give its steps. |
| BrdgmmKernel.CompOffset | src/cpu/x64/brgemm/jit_brdgmm_kernel.hpp:300 | The compensation offset is a whole number of int32 elements. BlockStep gives its step. |
| BrdgmmKernel.OffsetsStartAtZero | src/cpu/x64/brgemm/jit_brdgmm_kernel.hpp:283-300 | Every offset of the first vector of the first block is 0. |
| BrdgmmKernel.RowStep | src/cpu/x64/brgemm/jit_brdgmm_kernel.hpp:284-293 | A row step moves A, C and D by one leading dimension times their element size. |
| BrdgmmKernel.BlockStep | src/cpu/x64/brgemm/jit_brdgmm_kernel.hpp:283-300 | An N-block step moves every offset by n_block1 elements of its type. The scales offset moves only with per-channel scales. |
| BrdgmmKernel.VectorStep | src/cpu/x64/brgemm/jit_brdgmm_kernel.hpp:288-299 | A vector step moves C, D, bias and per-channel scales by simd_w elements. |
| BrdgmmKernel.ScalesOffset | src/cpu/x64/brgemm/jit_brdgmm_kernel.hpp:297-299 | A common (not per-channel) scale is always read at offset 0. |
| BrdgmmKernel.COffsetsDisjoint | src/cpu/x64/brgemm/jit_brdgmm_kernel.hpp:288-290 | Distinct in-row vectors of a tile are stored to disjoint byte ranges of C. |
| BrdgmmKernel.DOffsetsDisjoint | src/cpu/x64/brgemm/jit_brdgmm_kernel.hpp:291-293 | Distinct in-row vectors of a tile are stored to disjoint byte ranges of D. |
| BrdgmmKernel.RowMajorVectorsDisjoint | src/cpu/x64/brgemm/jit_brdgmm_kernel.hpp:288-293 | In any row-major matrix, the element ranges of two distinct in-row vectors do not overlap. |
| BrdgmmKernel.VectorsOrdered | src/cpu/x64/brgemm/jit_brdgmm_kernel.hpp:288-293 | The lexicographic order of (m, n, v) is the order of the vectors in memory. |
| BrdgmmKernel.StackSlots | src/cpu/x64/brgemm/jit_brdgmm_kernel.hpp:152-163 | The eleven spill slots are 8-byte aligned, pairwise apart by at least 8 bytes, and each fits inside the 88 reserved bytes. |
| DnnlCommon.GetDefaultFormat | src/backend/dnnl/common.cpp:86-96 | Ranks 1 to 6 get the plain tag whose letters are the first ndim of "abcdef". Every other rank gets undef. |
| DnnlCommon.GetDefaultFormatOfDims | src/backend/dnnl/common.cpp:98-101 | The tag of a dims vector has one letter per dimension, and it is undef iff the rank is outside 1..6. |
| DnnlCommon.GetCompatibleDilates | src/backend/dnnl/common.cpp:103-107 | An all-positive non-empty list becomes each entry minus 1. Any other list becomes input_size - 2 zeros. |
| DnnlCommon.TruncDiv | src/backend/dnnl/common.cpp:112 | The 64-bit `/=` rounds toward zero: the magnitude is the quotient of the magnitudes and the sign is the product of the signs. It is exact when the divisor divides. |
| DnnlCommon.GroupDims | src/backend/dnnl/common.cpp:109-114 | The result is [g, d[0]/g, d[1], ...], one longer than d, where d[0]/g is the truncating division TruncDiv. When g divides d[0], its second entry times g is d[0]. |
| DnnlCommon.FromGroupedDims | src/backend/dnnl/common.cpp:329-336 | The groups value is dropped and folded into the new first entry. |
| DnnlCommon.FromGroupedUndoesGroup | src/backend/dnnl/common.cpp:329-336 | Merging after splitting gives d back when g divides d[0]. |
| DnnlCommon.GroupUndoesFromGrouped | src/backend/dnnl/common.cpp:109-114 | Splitting a merged shape by its own group count gives it back. |
| DnnlCommon.GroupDimsKeepsVolume | src/backend/dnnl/common.cpp:324-327 | Splitting keeps the element count, so the reshape of `to_grouped` is valid. |
| DnnlCommon.FromGroupedKeepsVolume | src/backend/dnnl/common.cpp:329-336 | Merging keeps the element count. |
| DnnlCommon.Expand | src/backend/dnnl/common.cpp:223-228 | The result has tgt_ndims entries, with leading ones followed by the original dims. |
| DnnlCommon.ExpandKeepsVolume | src/backend/dnnl/common.cpp:223-228 | Leading ones keep the element count. |
| DnnlCommon.ExpandTwice | src/backend/dnnl/common.cpp:223-228 | Expanding in two steps equals expanding once. |
| DnnlCommon.Iota | src/backend/dnnl/common.cpp:234-235 | The counter-driven generate yields 0..n-1. |
| DnnlCommon.PermuteLastTwoDimsAxes | src/backend/dnnl/common.cpp:231-239 | The swap of the two right-most axes is a permutation of 0..ndims-1. |
| DnnlCommon.PermuteNxcToNcxAxes | src/backend/dnnl/common.cpp:251-260 | The push_back/erase steps build the NXC-to-NCX axes, a permutation. |
| DnnlCommon.PermuteNcxToNxcAxes | src/backend/dnnl/common.cpp:262-271 | The insert/pop_back steps build the NCX-to-NXC axes, a permutation. |
| DnnlCommon.PermuteXioToOixAxes | src/backend/dnnl/common.cpp:283-293 | The steps build the XIO-to-OIX axes, a permutation. |
| DnnlCommon.PermuteOixToXioAxes | src/backend/dnnl/common.cpp:305-314 | The steps build the OIX-to-XIO axes, a permutation. |
| DnnlCommon.TransposeAxes | src/backend/dnnl/common.cpp:316-322 | The identity with exactly dim0 and dim1 exchanged, a permutation. |
| DnnlCommon.UndoneIsPermutation | src/backend/dnnl/common.cpp:231-322 | An axes vector with a left inverse is a permutation. |
| DnnlCommon.InversePermutationsCancel | src/backend/dnnl/common.cpp:241-250 | Under the documented rule new[perm[i]] = old[i], permuting by p and then by an inverse of p restores the dims. |
| DnnlCommon.SwappedSelfInverse | src/backend/dnnl/common.cpp:316-322 | A swap undoes itself. |
| DnnlCommon.NcxNxcInverse | src/backend/dnnl/common.cpp:251-271 | NXC2NCX and NCX2NXC undo each other in both orders, and both are permutations. |
| DnnlCommon.XioOixInverse | src/backend/dnnl/common.cpp:283-314 | XIO2OIX and OIX2XIO undo each other in both orders, and both are permutations. |
| DnnlCommon.FourDimInstances | src/backend/dnnl/common.cpp:241-304 | The 4-D axes are [0,2,3,1], [0,3,1,2], [2,3,1,0] and [3,2,0,1], as the doc comments give them. |
| DnnlCommon.FourDimDims | src/backend/dnnl/common.cpp:241-282 | NHWC permuted by NXC2NCX is NCHW, and HWIO permuted by XIO2OIX is OIHW. |
| DnnlCommon.LayoutRoundTrips | src/backend/dnnl/common.cpp:251-322 | NXC to NCX to NXC, XIO to OIX to XIO, and transposing twice each give the shape back. |
| DnnlCommon.SetShapeAndLayout | src/backend/dnnl/common.cpp:398-413 | dst always takes src's dims. When dst is `any`, it takes src's layout, except that a strided src is an invalid argument. Otherwise dst keeps its layout. |
| DnnlCommon.SetShapeAndLayoutIdempotent | src/backend/dnnl/common.cpp:398-413 | Propagating the same source a second time changes nothing. |
| Graphs.AddConsumer | src/interface/graph.cpp:321 | Registering a consumer adds exactly that port and changes nothing else of the value. |
| Graphs.RemoveConsumer | src/interface/graph.cpp:132-133 | Unregistering removes exactly that port and changes nothing else of the value. |
| Graphs.GetIds | src/interface/graph.cpp:34-42 | The result is the tensor id of each value, in order. |
| Graphs.LogicalTensorSanityCheck | src/interface/graph.cpp:44-62 | The check succeeds iff no tensor conflicts with another of the same id or with the one recorded for it. Recorded entries are never replaced, and on success every id is recorded with its tensor. |
| Graphs.ConsistentAppend | src/interface/graph.cpp:206-212 | Checking a list against the record of a consistent prefix is checking the whole concatenation. |
| Graphs.CheckOpTensors | src/interface/graph.cpp:209-212 | An op's inputs and then its outputs pass iff all tensors checked so far, these included, are id-consistent. |
| Graphs.ProducerMapSound | src/interface/graph.cpp:217-220 | Every producer entry names an output, of an op of the graph, that carries the entry's tensor id. |
| Graphs.RecordProducers | src/interface/graph.cpp:217-220 | Every output id of the op is recorded, with the last output of the op that carries it. Ids that no output carries keep their entry, and every new entry names an output carrying its id. |
| Graphs.WithOutputsLast | src/interface/graph.cpp:217-220 | Recording outputs one by one records each output id, with the last output carrying it, and keeps every other entry. |
| Graphs.ProducerMapLast | src/interface/graph.cpp:205-221 | The producer map is complete, since every output id of every op is recorded. The last output carrying an id, in op order and then output order, is the one recorded. |
| Graphs.Graph.CheckAndCollect | src/interface/graph.cpp:206-221 | The first pass succeeds iff all checked tensors are id-consistent. It yields every op's input ids and the producer map. |
| Graphs.Graph.ConnectInputs | src/interface/graph.cpp:223-260 | Every input is linked. An input of a produced id is linked to the producer's output. All inputs of an unproduced id share one producer-less value, the one its first input held. A value loses its producer only if it became such a shared value, and the only consumers it gains are the inputs now linked to it. |
| Graphs.ConnectInput | src/interface/graph.cpp:229-257 | One input step keeps the invariant of the connecting pass. The input just visited is linked to the producer's output, to the shared value of its unproduced id, or keeps its own value as that shared value. Only that value changes, gaining the one consumer port and possibly losing its producer. |
| Graphs.StepFramed | src/interface/graph.cpp:229-257 | One step registers only the visited input as a new consumer, and it drops a producer only of a recorded shared value. |
| Graphs.Graph.BuildGraph | src/interface/graph.cpp:193-264 | An already-built graph returns success unchanged. Otherwise the result is invalid_graph iff some tensors conflict on an id, and the stores are then untouched. On success the graph is marked built and linked as ConnectInputs states. |
| Partitions.Parts | src/interface/graph.cpp:159-173 | The partitions seen are distinct and no more than the visited ops. |
| Partitions.PartsListed | src/interface/graph.cpp:159-173 | A partition is listed iff some visited op belongs to it. |
| Partitions.MembersExact | src/interface/graph.cpp:159-173 | A group holds exactly the visited ops of its partition. |
| Partitions.Cluster | src/interface/graph.cpp:159-173 | The clustering loop computes the groups: one per partition in first-seen order, each in visit order. |
| Partitions.Unassigned | src/interface/graph.cpp:161 | An op with no partition leaves the groups unchanged. |
| Partitions.JoinGroup | src/interface/graph.cpp:162-167 | An op of a known partition is appended to that partition's group. |
| Partitions.NewGroup | src/interface/graph.cpp:168-171 | An op of a new partition opens a new group [op] at the end. |
| Partitions.GroupsHeaded | src/interface/graph.cpp:162-165 | Every group is non-empty and its first op carries the group's partition, which is what the lookup compares. |
| Partitions.ClustersPartitionOps | src/interface/graph.cpp:159-173 | Group g holds exactly the visited ops whose partition is the g-th one seen. |
| Partitions.ClustersCoverOps | src/interface/graph.cpp:159-173 | Every visited op with a partition is in some group. |
| Partitions.PartsInFirstSeenOrder | src/interface/graph.cpp:162-171 | Groups are ordered by the first appearance of their partition in the visit. |
| Partitions.MembersDistinct | src/interface/graph.cpp:159-173 | A visit without repeats gives groups without repeats. |
| Partitions.ClustersFitRewrite | src/interface/graph.cpp:155-176 | The groups are non-empty, repeat-free, pairwise disjoint patterns of graph ops, which is what `rewrite` needs. |
| Rewriting.SelectBoundary | src/interface/graph.cpp:90-128 | The scan yields exactly the fused inputs and fused outputs defined below. |
| Rewriting.AllConsumersIn | src/interface/graph.cpp:114-120 | The result holds iff every consumer is a pattern op. |
| Rewriting.FusedInputsExact | src/interface/graph.cpp:99-108 | (value, port) is a fused input iff it is input j of pattern op i, and the value has no producer or its producer is not among pattern ops 0..i. |
| Rewriting.EnteringExact | src/interface/graph.cpp:99-108 | The per-op step of the input scan selects exactly the inputs that enter from outside the ops visited so far. |
| Rewriting.FusedOutputsExact | src/interface/graph.cpp:110-127 | A value is a fused output iff it is an output of some pattern op with no consumers, or with a consumer outside the pattern. |
| Rewriting.LeavingExact | src/interface/graph.cpp:110-127 | The per-op step of the output scan selects exactly the outputs that leave the pattern. |
| Rewriting.LinkInEffect | src/interface/graph.cpp:131-136 | Connecting inputs changes only consumers. A non-fused port stays iff it was not a fused input of that value. Port (f, t) consumes exactly the t-th fused input. |
| Rewriting.LinkOutEffect | src/interface/graph.cpp:139-142 | Connecting outputs changes only producers. An unlisted value is untouched, and a listed value's producer is (f, its last position). |
| Rewriting.ConnectFusedInputs | src/interface/graph.cpp:131-136 | The loop leaves the stores as LinkIn describes and makes the fused op's inputs the fused input values in order. |
| Rewriting.ConnectFusedOutputs | src/interface/graph.cpp:139-142 | The loop leaves the stores as LinkOut describes and makes the fused op's outputs the fused outputs in order. |
| Rewriting.RemainingExact | src/interface/graph.cpp:144-146 | After deletion, an op is listed iff it was listed and is not a pattern op. |
| Rewriting.RemainingDistinct | src/interface/graph.cpp:144-146 | Deleting keeps the op list free of repeats. |
| Rewriting.RemainingTwice | src/interface/graph.cpp:144-146 | Deleting two sets in turn is deleting their union. |
| Rewriting.DeletePattern | src/interface/graph.cpp:144-146 | The deletion loop removes exactly the pattern ops from the list, keeping order, and from the store. |
| Rewriting.FusePattern | src/interface/graph.cpp:78-146 | Fusing one pattern keeps the graph valid. It adds one Wildcard op carrying the first op's partition, with the fused inputs and outputs. It rewires the values as LinkIn then LinkOut, and it deletes exactly the pattern ops. |
| Rewriting.FusedValid | src/interface/graph.cpp:82-146 | The list and store after fusing are well wired and free of repeats, and the fresh handle is above every op. |
| Rewriting.PatternInGraph | src/interface/graph.cpp:82 | A pattern of graph ops is wired, and the fresh handle is not among them. |
| Rewriting.Rewrite | src/interface/graph.cpp:69-148 | After all patterns the graph is valid. The op list is the untouched ops followed by one fresh op per pattern, and untouched ops keep their records. Fresh op p is a Wildcard carrying the partition of pattern p's first op. The stores before each round form a chain: round p rewires the values as LinkIn then LinkOut and replaces pattern p's ops by FusedOp of that round's stores. Every fused op, with its inputs and outputs, is still in the final graph. |
| Rewriting.FusedOpsStay | src/interface/graph.cpp:74-147 | A round keeps the ops earlier rounds created, because patterns name only original ops, and records its own round. |
| Rewriting.RewriteOps | src/interface/graph.cpp:74-147 | One more pattern fused extends the op-list invariant of the outer loop. |
| Rewriting.RewriteNodes | src/interface/graph.cpp:74-147 | One more pattern fused extends the op-store invariant of the outer loop. |
| Rewriting.LaterPatternsStay | src/interface/graph.cpp:74-147 | Disjoint patterns not yet fused are still patterns of the current graph. |
| DeepCopy.CopyValue | src/interface/graph.cpp:294-303 | A value already copied is reused. Otherwise one fresh copy with the same tensor and internal flag, no producer and no consumers, is appended and recorded. |
| DeepCopy.DeepCopy | src/interface/graph.cpp:267-326 | There is one copy per op, in order, with the same id, kind and partition, whose i-th output and input are the copies of the original's. Exactly the referenced values are copied, once each, keeping tensor and internal flag; distinct values get distinct copies and every copy stems from one value. Consumers are exactly the copied input ports, and each producer is the last copied output naming the value. |

## Left out

- JIT code emission in jit_brdgmm_kernel.hpp (`generate`, loads, dot products, padding kernels, stores, post-ops): it is machine code, not planning arithmetic.
- Physical register names, the post-ops injector, bf16 emulation, and the `vmm_permute`/`vmm_shift`/`vmm_s8s8_comp`/`vmm_zp_comp`/`vmm_bcast` accessors. The constructor that fills those indices is not part of this model.
- BrdgmmKernel.NeedsSumScaleVmm: the test `sum_scale != 1.f` is a boolean field, since floating point is not modelled.
- BrdgmmKernel.Isa: ISAs are modelled by the feature sets they include, and `is_superset` by set inclusion. The bit encoding of `cpu_isa_t` is not part of this model.
- BrdgmmKernel.AOffset: the offsets are unbounded naturals. The model does not capture the `int` overflow that very large leading dimensions would cause in the source. The same holds for BOffset, COffset, DOffset, BiasOffset, ScalesOffset and CompOffset.
- BrdgmmKernel.Accm: the generator's `assert`s are preconditions, so an out-of-range call is excluded rather than modelled as a crash. The bound vnni_idx < substep is the model's own: the generator does not assert it. VmmTmp takes its assert the same way.
- BrdgmmKernel.CheckEffectivePadding: modelled as the plain predicate, with no contract. Its only users are the vertical-padding kernels, which emit code and are not part of this model.
- In common.cpp: the allocator, engine, stream and memory constructors, SYCL and threadpool interop, the layout-id registry, `fill_layout_info`, `to_format_any`, `is_format`, `is_4c_blocked` and `to_default_format`. These are library, I/O or global-state calls. The model covers the dims and axes vectors fed to `permute_axes` and `reshape`, not the memory descriptors.
- DnnlCommon.GetCompatibleDilates: requires input_size >= 2 when the list is empty or holds a non-positive entry. In the source `input_size - 2` is an unsigned subtraction that wraps, and constructing the vector then throws.
- DnnlCommon.GroupDims: dims are unbounded integers. The source's int64 `/=` overflows for INT64_MIN / -1, which is undefined behaviour. The requires excludes the division by zero and the empty dims, both undefined behaviour in the source.
- DnnlCommon.FromGroupedDims: the int64 `*=` that folds the groups in can overflow in the source, which is undefined behaviour. The model multiplies unbounded integers. It requires at least two dims, since the source indexes an emptied vector otherwise.
- DnnlCommon.Expand: requires tgt_ndims >= the current rank. In the source a negative insert count is converted to a huge size and the insert throws.
- DnnlCommon.PermuteOixToXioAxes: requires ndims >= 2. The source has no assert there and reads `axes[size - 2]` out of bounds for smaller ranks.
- DnnlCommon.SetShapeAndLayout: strides are not modelled, so the strides that `set_shape_and_strides` computes for a strided dst are not captured.
- The C API wrappers, backend dispatch and `.dot` dump in graph.cpp.
- `topo_order_visit` is not modelled: the clustering takes the visit order as an input sequence.
- The second visit of `get_ordered_partitions` and `partition_t::init` are not modelled.
- Op attributes, names and op-id lists (`merge_attributes`, `add_op_ids`) are not modelled.
- Logical-tensor equality is structural equality of the modelled fields.
- The `op_t` and `value_t` helpers (`connect_input`, `add_input`, `add_output`, `add_consumer`, `remove_consumer`, `set_producer`, `reset_producer`, `create_op`, `delete_op`) are not part of this model. Their effect is written out on the stores: `add_consumer` does not list a port twice, `add_output` makes the op the value's producer, `create_op` takes the next fresh handle, and `delete_op` removes the op from the list and the store.
- Graphs.Graph.BuildGraph: the dummy Wildcard ops live only in a local list and are dropped at return. The model keeps their one observable effect, a single shared producer-less value per unproduced id. When `connect_input` relinks an input, the old value's consumer entry is not removed.
- Rewriting.Rewrite: the fused op's handle stands in for its pointer. The consumer and producer entries of deleted pattern ops that stay inside the pattern are left in place, as the source leaves them. Values are never freed. Patterns must be disjoint and non-empty, as the clustering provides (Partitions.ClustersFitRewrite).
- DeepCopy.DeepCopy: the op list must be free of repeats, because the source keys `op_map` by op and a repeated op would be copied twice into one entry.
- tests/cpp/api/test_cpp_api_tensor.cpp exercises tensor construction, which is outside this model.
