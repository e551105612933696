# fastfilters in Dafny

A model of the scalar core of fastfilters, a library of separable Gaussian and
Gaussian-derivative filters with eigenvalue post-processing, and proofs about it. Every
numeric loop computes in exact reals. The transcendental functions (`exp`, `sqrt`, `atan2`,
`cos`, `sin`) are function-valued parameters of type `Numerics.Libm`. About them, only the
facts a lemma names in its `requires` are assumed.

The modules follow the source files:

| module (file) | models |
|---|---|
| `Wrappers` (wrappers.dfy), `Numerics` (numerics.dfy), `BorderTreatment` (border.dfy) | Option/Result, the numeric helpers of the C library, the border enumeration |
| `Memory` (memory.dfy) | `src/library/memory.c`: allocator indirection, aligned allocation with its 8-byte magic header, aligned free; a heap class with a set of live blocks |
| `Cpu` (cpu.dfy) | `src/cpu.c`: the CPUID/XGETBV bit tests and the three feature flags |
| `FirKernel` (fir_kernel.dfy), `FirKernelLegacy` (fir_kernel_legacy.dfy) | `src/library/fir_kernel.c` and the older `src/fir_kernel.c`: validation, half length, sampling, DC removal, moment normalisation, sign flip |
| `Strided` (strided.dfy) | strided line addressing and what a buffer holds after a sequence of stores |
| `FirConvolveNosimdImpl`, `FirConvolveNosimdOuter` | `src/fir_convolve_nosimd_impl.h`: the folded half-kernel line loops (reflect-101 mirror or optimistic borders) and the ring-buffer outer variant |
| `ConvolveFir`, `ConvolveFirNosimd` | `src/convolve_fir.cxx`, `src/convolve_fir_nosimd.cxx`: full-kernel scalar lines |
| `FirConvolveNosimd`, `FirConvolveAvx`, `FirConvolve` | jump-table selection, `find_fn`, the 2-D pass sequence and ROI rejection |
| `Array2d` (array2d.dfy), `FirFilters` (fir_filters.dfy) | `src/array.c` and the derived 2-D filters of `src/fir_filters.c` |
| `Linalg` (linalg.dfy) | `src/library/linalg.c`: combine loops, the 2×2 and 3×3 eigenvalue routines, routine binding |
| `ConvolveIir`, `ConvolveIirDeriche` | `src/convolve_iir.cxx`, `src/convolve_iir_deriche.cxx`: causal/anticausal recurrences and the Deriche coefficient expansion |
| `PythonCore`, `PyArrays`, `PythonPackage`, `PythonFastfilters`, `FastfiltersPackage` | `src/python/core.cxx` and the three Python packages' dispatch and layout logic |

Mutable C state takes imperative form. Kernels, images, the heap, the CPU flags, the routine
table and the filter driver are classes. The loops are methods with loop invariants, proved
against specification functions. Expression-level logic is functions and lemmas.

Behaviours of the code that shape the model:
- `src/library/fir_kernel.c` rejects only `sigma < 0`, so sigma 0 gives a kernel. With a positive window ratio w the half-length is floor(w·sigma + 0.5). Otherwise it is ceil((3 + 0.5·order)·sigma), which depends on the order.
- `fastfilters_fir_convolve2d` in `src/fir_convolve.c` returns false for every region of interest other than all zeros. No region is ever computed.
- The full-kernel lines of `src/convolve_fir.cxx` and `src/convolve_fir_nosimd.cxx` replace an out-of-range tap j + k by j − k. That agrees with reflect-101 only at the first pixel.
- The eigenvalue bindings of `src/python/core.cxx` return the components on a leading axis. The `src/python` wrappers roll it to the end.
- `src/python_fastfilters/__init__.py` restores the layout with the reversed permutation, not its inverse, and does not account for the extra component axis. See Findings.

## Model

| member | source | states |
|---|---|---|
| Memory.Heap.Init | src/library/memory.c:30-41 | a missing allocator falls back to malloc and a missing free function to free; a given one is installed |
| Memory.Heap.Alloc | src/library/memory.c:43-46 | returns the allocator's next outcome; a non-null block is new and is recorded with its size, a null outcome changes nothing |
| Memory.Heap.Free | src/library/memory.c:48-51 | exactly the given block leaves the live set |
| Memory.AlignedAddress | src/library/memory.c:61-63 | the aligned address lies between raw + 8 and raw + alignment + 7 |
| Memory.AndNotLowBits | src/library/memory.c:63 | clearing the low k bits of x leaves 2^k times the high part of x |
| Memory.AlignedAddressIsMultiple | src/library/memory.c:61-63 | for an alignment 2^k the returned address is a multiple of 2^k |
| Memory.AlignedBlockInsideAllocation | src/library/memory.c:56-68 | the 8-byte header starts at or after raw, and the aligned block ends within raw + size + alignment + 8 |
| Memory.Header | src/library/memory.c:65-70 | the header's bits above the low byte are ALIGN_MAGIC (whose low byte is 0) and its low byte is diff mod 256 |
| Memory.Heap.Align | src/library/memory.c:53-73 | an allocation failure returns NULL and writes no header; otherwise the block of size + alignment + 8 bytes (mod 2^64) is live, the address is the aligned one and the header word at p - 8 holds the magic and the offset |
| Memory.Heap.AlignFree | src/library/memory.c:75-84 | a header without the magic is a failed assertion; otherwise p minus the header's low byte is freed when it is a live block, and an invalid free is reported otherwise |
| Memory.AlignFreeRecoversRaw | src/library/memory.c:55-82 | when alignment + 7 <= 0xff, the aligned address minus the stored low byte is the raw pointer |
| Memory.AlignFreeTruncatesOffset | src/library/memory.c:55-82 | alignment 250 passes the assertion, but the offset 256 is stored as 0, so align_free hands the aligned address, not the raw one, to free |
| Memory.AlignThenFree | src/library/memory.c:53-84 | with alignment + 7 <= 0xff, aligning and then align-freeing frees exactly the raw block and restores the live set |
| Cpu.AvxBits | src/cpu.c:166-186 | the AVX probe holds iff CPUID leaf 1 exists with ECX bit 28 set and XCR0 bits 1 and 2 are set |
| Cpu.Avx2Bits | src/cpu.c:127-150 | the AVX2 probe holds iff CPUID leaf 7 exists with EBX bit 5 set and XCR0 bits 1 and 2 are set |
| Cpu.FmaBits | src/cpu.c:202-219 | the FMA probe holds iff the AVX probe holds and CPUID leaf 1 ECX bit 12 is set |
| Cpu.FmaNeedsAvx | src/cpu.c:194-207 | the FMA probe is false whenever the AVX probe is false, under either probing method |
| Cpu.AsmXgetbvNeedsOsxsave | src/cpu.c:87-97 | the asm xgetbv returns 0 unless leaf 1 reports XSAVE and OSXSAVE, and then neither AVX nor AVX2 is reported |
| Cpu.Flags.Check | src/cpu.c:262-274 | an unknown feature reads false; it reads the flags and changes nothing |
| Cpu.Flags.Init | src/cpu.c:227-232 | each of the three flags is set from its own probe |
| Cpu.Flags.Enable | src/cpu.c:234-260 | disabling clears only that feature's flag and returns false; enabling re-probes only that flag and returns its new value; an unknown feature returns false and changes nothing |
| FirKernel.HalfLength | src/library/fir_kernel.c:74-80 | below sigma 1e-6 the length is 0; otherwise it is floor(window_ratio * sigma + 0.5) for a positive window ratio and ceil((3 + order/2) * sigma) otherwise |
| FirKernel.Kernel.ClearImplementations | src/library/fir_kernel.c:162-167 | all six implementation pointers are NULL afterwards |
| FirKernel.Samples | src/library/fir_kernel.c:104-118 | len + 1 samples, index 0 the centre tap |
| FirKernel.MassShift | src/library/fir_kernel.c:126-127 | subtracting d from every tap lowers the mass c[0] + 2 * Σ c[x] by (2m + 1) * d |
| FirKernel.MassScale | src/library/fir_kernel.c:155-156 | dividing every tap by s divides the mass by s |
| FirKernel.FirstMomentScale | src/library/fir_kernel.c:155-156 | dividing every tap by s divides Σ 2x * c[x] by s |
| FirKernel.FirstMomentNegate | src/library/fir_kernel.c:158-160 | the sign flip negates Σ 2x * c[x] |
| FirKernel.SecondMomentScale | src/library/fir_kernel.c:155-156 | dividing every tap by s divides Σ x² * c[x] by s |
| FirKernel.MomentSumOrder1 | src/library/fir_kernel.c:136-152 | for order 1 (sign -1, 1! = 1) the moment loop sums -Σ 2x * c[x] |
| FirKernel.MomentSumOrder2 | src/library/fir_kernel.c:136-152 | for order 2 (sign 1, 2! = 2) the moment loop sums Σ x² * c[x] |
| FirKernel.NormalisedMass | src/library/fir_kernel.c:131-156 | dividing by a non-zero mass gives mass 1 |
| FirKernel.NormalisedFirstMoment | src/library/fir_kernel.c:136-160 | dividing by the order-1 moment sum and flipping the sign gives first moment 1 |
| FirKernel.NormalisedSecondMoment | src/library/fir_kernel.c:136-156 | dividing by the order-2 moment sum gives Σ x² * c[x] = 1 |
| FirKernel.RemovedDcMass | src/library/fir_kernel.c:120-128 | after subtracting the mean dc from every tap the mass is 0 |
| FirKernel.ScaledZeroMass | src/library/fir_kernel.c:155-156 | the division keeps a zero mass zero |
| FirKernel.Order0SumsToOne | src/library/fir_kernel.c:104-156 | an order-0 kernel whose raw samples have non-zero mass ends with c[0] + 2 * Σ c[x] = 1 |
| FirKernel.Order2ZeroDc | src/library/fir_kernel.c:120-156 | an order-2 kernel has zero mass after DC removal and after the division |
| FirKernel.Order1FirstMoment | src/library/fir_kernel.c:136-160 | an order-1 kernel with a non-zero raw first moment ends with Σ 2x * c[x] = 1 |
| FirKernel.Order2SecondMoment | src/library/fir_kernel.c:120-156 | an order-2 kernel with a non-zero centred second moment ends with Σ x² * c[x] = 1 |
| FirKernel.Gaussian | src/library/fir_kernel.c:58-170 | order > 2 or sigma < 0 returns NULL without allocating (sigma 0 is accepted); either allocation failing returns NULL with nothing leaked; a kernel owns exactly its two new blocks, has HalfLength taps plus the centre, is symmetric iff order != 1, holds the Coefficients sequence and no implementation pointers |
| FirKernel.AllocKernel | src/library/fir_kernel.c:70-91 | the two allocations: either failure leaves the live set unchanged, success records both blocks and builds the kernel |
| FirKernel.NewKernel | src/library/fir_kernel.c:82-91 | the new record has len + 1 coefficients equal to Coefficients, the symmetry flag of the order and no implementation pointers |
| FirKernel.ComputeCoefficients | src/library/fir_kernel.c:104-160 | sampling, DC removal (order 2), division by the normalising sum and the sign flip (order 1) leave exactly Coefficients in the array |
| FirKernel.FillSamples | src/library/fir_kernel.c:104-118 | the array holds norm * exp(x² * sigma2) times 1, x or 1 - (x/sigma)² by order |
| FirKernel.RemoveDcInPlace | src/library/fir_kernel.c:120-128 | the array becomes RemoveDc of its old contents: every tap less the mean of the symmetric kernel |
| FirKernel.NormalisingSum | src/library/fir_kernel.c:130-153 | the sum is the kernel mass for order 0 and the signed moment sum divided by order! otherwise |
| FirKernel.MassSum | src/library/fir_kernel.c:131-134 | the order-0 loop computes c[0] + 2 * Σ c[x] |
| FirKernel.MomentLoop | src/library/fir_kernel.c:145-152 | the derivative loop computes Σ c[x] * (-x)^order / order! + sign * c[x] * x^order / order! |
| FirKernel.DivideInPlace | src/library/fir_kernel.c:155-156 | every tap is divided by the sum |
| FirKernel.NegateInPlace | src/library/fir_kernel.c:158-160 | every tap changes sign |
| FirKernel.Free | src/library/fir_kernel.c:172-176 | the coefficient block and the record leave the live set |
| FirKernelLegacy.HalfLength | src/fir_kernel.c:73 | the length is ceil((3 + order/2) * sigma), with no window ratio and no small-sigma rule |
| FirKernelLegacy.Samples | src/fir_kernel.c:96-108 | len + 1 raw samples, index 0 the centre tap |
| FirKernelLegacy.SamplesMatchLibrary | src/fir_kernel.c:85-108 | because case 1 falls through, every order-1 tap is the order-2 sample (1 - (x/sigma)²) * g; orders 0 and 2 agree with the library's samples |
| FirKernelLegacy.Order1CentreTap | src/fir_kernel.c:103-106 | the intended order-1 centre tap x * g is 0, the one written is g itself |
| FirKernelLegacy.Gaussian | src/fir_kernel.c:58-111 | order > 2 or sigma < 0 returns NULL without allocating; an allocation failure returns NULL with nothing leaked; a kernel owns its two new blocks, has HalfLength + 1 raw samples (no normalisation) and is symmetric iff order != 1 |
| FirKernelLegacy.FillSamples | src/fir_kernel.c:96-108 | the array holds the raw samples, with order 1 overwritten by the order-2 formula |
| FirKernelLegacy.Free | src/fir_kernel.c:113-117 | the coefficient block and the record leave the live set |
| Strided.ReadBack | src/fir_convolve_nosimd_impl.h:95-127 | after line i is written at outer_stride · i + pixel_stride · j for every pixel j, and lines do not overlap, reading that address gives back the value written |
| Strided.Untouched | src/fir_convolve_nosimd_impl.h:95-127 | an element that no written line addresses keeps its value |
| Strided.StoreOrderIrrelevant | src/fir_convolve_nosimd_impl.h:218-240 | writing pixel by pixel across the lines, as the outer variant does, leaves the same buffer as writing line by line |
| Strided.RowMajorSeparate | src/fir_convolve_nosimd_impl.h:95-127 | when the line stride spans at least a whole line of pixels, distinct (line, pixel) pairs have distinct addresses |
| Strided.ColumnMajorSeparate | src/fir_convolve_nosimd_impl.h:202-240 | when the pixel stride spans at least all the lines, distinct (line, pixel) pairs have distinct addresses |
| Strided.ChannelsUntouched | src/array.c:32-33 | in an interleaved image with stride_x = channels, a pass over channel 0 leaves every other channel's elements alone |
| FirConvolveNosimdImpl.CorrelatePeelLow | src/fir_convolve_nosimd_impl.h:139-150 | the unfolded correlation splits off its lowest tap |
| FirConvolveNosimdImpl.CorrelateCongruent | src/fir_convolve_nosimd_impl.h:105-124 | two readings that pick the same pixel for every tap give the same correlation |
| FirConvolveNosimdImpl.TapSumStep | src/fir_convolve_nosimd_impl.h:107-125 | one pass of the tap loop adds c[k] * (x[right] + x[left]), or the difference for an antisymmetric kernel |
| FirConvolveNosimdImpl.CorrelateHighStep | src/fir_convolve_nosimd_impl.h:114-120 | the full correlation over [1 - m, m] is the one over [1 - m, m - 1] plus w[m] times the right tap |
| FirConvolveNosimdImpl.CorrelateLowStep | src/fir_convolve_nosimd_impl.h:109-123 | the full correlation over [-m, m] is w[-m] times the left tap plus the rest, with w[-m] = c[m] or -c[m] |
| FirConvolveNosimdImpl.FoldingIdentity | src/fir_convolve_nosimd_impl.h:105-124 | c[0] * x[j] plus the folded tap sum up to m equals the full correlation over [-m, m] with w[±k] = c[k], or ±c[k] |
| FirConvolveNosimdImpl.FoldedIsCorrelation | src/fir_convolve_nosimd_impl.h:105-124 | every output of every variant is the full-kernel correlation of the pixels the variant reads |
| FirConvolveNosimdImpl.MirrorIsReflect101 | src/fir_convolve_nosimd_impl.h:108-117 | with KERNEL_LEN < n, offset_left is the reflect-101 index of j - k and offset_right that of j + k, and both lie in [0, n) |
| FirConvolveNosimdImpl.MirrorVariantIsReflect101 | src/fir_convolve_nosimd_impl.h:101-183 | a mirror/mirror variant computes the reflect-101 correlation at every pixel |
| FirConvolveNosimdImpl.OptimisticVariantReadsHalo | src/fir_convolve_nosimd_impl.h:134-150 | an optimistic/optimistic variant reads j ± k with no mapping, which leaves the line near either end |
| FirConvolveNosimdImpl.UnsignedLeftTapAgrees | src/fir_convolve_nosimd_impl.h:145-148 | for k <= i_inner the unsigned difference is the true one |
| FirConvolveNosimdImpl.UnsignedLeftTapWraps | src/fir_convolve_nosimd_impl.h:145-148 | for i_inner < k the unsigned difference is 2^32 + i_inner - k |
| FirConvolveNosimdImpl.OptimisticLeftTapWraps | src/fir_convolve_nosimd_impl.h:137-148 | with an optimistic left border, pixel 0 reads the tap at -1, which the unsigned arithmetic turns into index 2^32 - 1 |
| FirConvolveNosimdImpl.TapsWithin | src/fir_convolve_nosimd_impl.h:102-172 | under LongEnough every tap lies in [LowestRead, HighestRead]: inside the line for a mirrored end, within KERNEL_LEN of it for an optimistic one |
| FirConvolveNosimdImpl.ViewPixel | src/fir_convolve_nosimd_impl.h:95 | pixel t of the line is the element at address base + t * pixel_stride |
| FirConvolveNosimdImpl.ReadPixel | src/fir_convolve_nosimd_impl.h:95 | the read is in bounds and returns pixel t of the line |
| FirConvolveNosimdImpl.TapTerm | src/fir_convolve_nosimd_impl.h:108-124 | one tap term, with the mirrored offsets in the border loops and plain ones in the valid area, equals Term |
| FirConvolveNosimdImpl.PixelSum | src/fir_convolve_nosimd_impl.h:103-125 | the running sum of one output pixel equals Folded |
| FirConvolveNosimdImpl.StorePixel | src/fir_convolve_nosimd_impl.h:127 | exactly one element, pixel j of the output line, changes, and it receives Folded |
| FirConvolveNosimdImpl.StoreRange | src/fir_convolve_nosimd_impl.h:102-128 | one of the three loops writes outputs from..to of the line and nothing else |
| FirConvolveNosimdImpl.ConvolveLine | src/fir_convolve_nosimd_impl.h:98-186 | the three loops partition [0, n): every output of the line is written once with its Folded value and nothing else changes |
| FirConvolveNosimdImpl.ConvolveNextLine | src/fir_convolve_nosimd_impl.h:94-96 | line i is read and written at outer_stride * i and the lines before it keep their values |
| FirConvolveNosimdImpl.ConvolveInner | src/fir_convolve_nosimd_impl.h:90-190 | every line is convolved into its own output positions and nothing outside them is written; the result is true |
| FirConvolveNosimdImpl.InnerReadBack | src/fir_convolve_nosimd_impl.h:94-96 | after the inner variant, the output element of line i, pixel j holds Folded of that line of the input |
| FirConvolveNosimdImpl.LineValues | src/fir_convolve_nosimd_impl.h:98-186 | a line has n outputs |
| FirConvolveNosimdOuter.CopyNeedsUnitOuterStride | src/fir_convolve_nosimd_impl.h:279-281 | the memcpy of a flushed row puts element q >= 1 where it belongs exactly when outer_stride is 1 |
| FirConvolveNosimdOuter.InterleavedCopyMisplaced | src/fir_convolve_nosimd_impl.h:281 | with outer stride 3, element 1 of row 0 is copied to offset 1 instead of offset 3 |
| FirConvolveNosimdOuter.ConvolveOuterAsWritten | src/fir_convolve_nosimd_impl.h:202-334 | as written: the outer variant returns false both when the scratch allocation fails, leaving the output untouched, and after it has written every row and freed the scratch |
| FirConvolveNosimdOuter.FlushSlotHoldsFlushRow | src/fir_convolve_nosimd_impl.h:253-281 | once i >= KERNEL_LEN, the slot (i + 1) mod (KERNEL_LEN + 1) is the one row i - KERNEL_LEN was computed into |
| FirConvolveNosimdOuter.RingSlotsDistinct | src/fir_convolve_nosimd_impl.h:253-287 | rows at most KERNEL_LEN apart occupy distinct slots, so no pending row is overwritten |
| FirConvolveNosimdOuter.RingOverflows | src/fir_convolve_nosimd_impl.h:205-271 | row KERNEL_LEN goes to slot KERNEL_LEN, whose first float lies past the KERNEL_LEN * n_outer floats allocated |
| FirConvolveNosimdOuter.LeftBorderLayoutMismatch | src/fir_convolve_nosimd_impl.h:241-281 | the left border loop stores row 1 at n_pixels + q, not at slot 1 where it is later copied from, whenever n_pixels != n_outer |
| FirConvolveNosimdOuter.ClosingFlushes | src/fir_convolve_nosimd_impl.h:325-330 | the closing loop copies rows n_pixels - KERNEL_LEN + i from their own slots |
| FirConvolveNosimdOuter.OuterOptimisticLeftTapWraps | src/fir_convolve_nosimd_impl.h:248-267 | with an optimistic left border the interior loop computes pixel 0, whose tap at distance 1 is the pixel one stride before the line; the unsigned difference reads 2^32 strides past it |
| FirConvolveNosimdOuter.ClosingRowWraps | src/fir_convolve_nosimd_impl.h:324-329 | with optimistic borders a line shorter than the kernel radius is accepted, and the closing loop's row n_pixels + i - KERNEL_LEN is negative and wraps to 2^32 plus that row |
| FirConvolveNosimdOuter.EmptyLineClosingRow | src/fir_convolve_nosimd_impl.h:324-329 | an empty line with KERNEL_LEN 1 and optimistic borders is accepted, and the closing loop copies out row 2^32 - 1 |
| FirConvolveNosimdOuter.InPlaceRowsSafe | src/fir_convolve_nosimd_impl.h:259-281 | in place along the pixel axis, with rows of n_outer pixels one outer stride apart, no output row is an input pixel a later row reads |
| FirConvolveNosimdOuter.TapsAbove | src/fir_convolve_nosimd_impl.h:220-230 | no tap of row i reads a row before i - KERNEL_LEN |
| FirConvolveNosimdOuter.FoldedLocal | src/fir_convolve_nosimd_impl.h:216-239 | an output depends only on the pixels from KERNEL_LEN before it onwards |
| FirConvolveNosimdOuter.SettledRow | src/fir_convolve_nosimd_impl.h:259-271 | while those pixels hold their original values, row i computed from the current buffer equals row i of the original image |
| FirConvolveNosimdOuter.RowPixel | src/fir_convolve_nosimd_impl.h:216-239 | one output of row i for line q equals its Folded value over the original image |
| FirConvolveNosimdOuter.ComputeRow | src/fir_convolve_nosimd_impl.h:215-242 | the slot receives row i for every line, and every other slot keeps its contents |
| FirConvolveNosimdOuter.RowsAt | src/fir_convolve_nosimd_impl.h:216-239 | entry (i, q) of the row table is output q of row i |
| FirConvolveNosimdOuter.CopyOut | src/fir_convolve_nosimd_impl.h:279-281 | the flushed row is stored, line q at outer_stride * q, and the earlier rows keep their values |
| FirConvolveNosimdOuter.CopiedRowsUnread | src/fir_convolve_nosimd_impl.h:279-281 | working in place, the rows already copied out are not pixels that the next row reads |
| FirConvolveNosimdOuter.ComputeIntoRing | src/fir_convolve_nosimd_impl.h:253-272 | row i joins the pending rows in the ring |
| FirConvolveNosimdOuter.CopyOldest | src/fir_convolve_nosimd_impl.h:279-281 | the oldest pending row, i - KERNEL_LEN, is copied out |
| FirConvolveNosimdOuter.ComputeStep | src/fir_convolve_nosimd_impl.h:252-272 | the row is computed into the ring, working in place or not |
| FirConvolveNosimdOuter.FlushStep | src/fir_convolve_nosimd_impl.h:274-281 | once i >= KERNEL_LEN, the copy-out restores the ring invariant for i + 1 |
| FirConvolveNosimdOuter.Step | src/fir_convolve_nosimd_impl.h:252-282 | one row of a loop keeps the ring invariant: rows up to i are computed, rows up to i - KERNEL_LEN are in the output |
| FirConvolveNosimdOuter.StepRange | src/fir_convolve_nosimd_impl.h:286-322 | one of the three row loops keeps the ring invariant from its first row to its last |
| FirConvolveNosimdOuter.Drain | src/fir_convolve_nosimd_impl.h:325-330 | the closing copies leave every row in the output |
| FirConvolveNosimdOuter.ConvolveOuter | src/fir_convolve_nosimd_impl.h:202-334 | corrected: KERNEL_LEN + 1 slots of n_outer floats; without scratch memory the call returns false and writes nothing; otherwise it returns true, frees the scratch and leaves every row of the original image's outputs in place, line q at outer_stride * q |
| FirConvolveNosimdOuter.OuterMatchesInner | src/fir_convolve_nosimd_impl.h:202-334 | when output pixels are distinct, the outer variant's result equals the inner variant's |
| FirConvolve.FailingOuterFailsFilter | src/fir_convolve.c:42-48 | an outer pass that always returns false makes fastfilters_fir_convolve2d return false after it has written the vertical pass's output |
| FirConvolve.AsWrittenOuterFailsFilter | src/fir_convolve.c:42-48 | an outer pass that does its work and then returns false, as the scalar outer variant does, makes every fastfilters_fir_convolve2d call return false, with the output the filter leaves when the pass reports success |
| ConvolveFir.LoopTapIsMirrorTap | src/convolve_fir.cxx:20-59 | with kernel_len <= n_pixels, the tap each of the three loops reads is j + kreal, replaced by j - kreal outside the line, and it lies in [0, n_pixels) |
| ConvolveFir.MirrorTapAtStartIsReflect101 | src/convolve_fir.cxx:24-28 | at j = 0 the replacement rule is the reflect-101 index |
| ConvolveFir.MirrorTapIsNotReflect101 | src/convolve_fir.cxx:24-28 | elsewhere it is not: n = 5, kernel_len = 5, j = 1 reads pixel 3 for offset -2 where reflect-101 reads pixel 1 |
| ConvolveFir.AccAdditive | src/convolve_fir.cxx:21-29 | the tap sum of a sum of lines is the sum of the tap sums |
| ConvolveFir.AccHomogeneous | src/convolve_fir.cxx:21-29 | the tap sum of a scaled line is the scaled tap sum |
| ConvolveFir.OutputLinear | src/convolve_fir.cxx:21-58 | every output is linear in the input line |
| ConvolveFir.AccOfZero | src/convolve_fir.cxx:21-29 | an all-zero line gives a zero tap sum |
| ConvolveFir.OutputOfZero | src/convolve_fir.cxx:21-58 | an all-zero line gives all-zero outputs |
| ConvolveFir.ReadSample | src/convolve_fir.cxx:26-55 | the read is in bounds and returns pixel p of the line |
| ConvolveFir.TapIndex | src/convolve_fir.cxx:24-55 | the index a loop computes is the loop's tap and lies inside the line |
| ConvolveFir.TapSample | src/convolve_fir.cxx:23-56 | the sample read for tap k is pixel taps[k] |
| ConvolveFir.AccNext | src/convolve_fir.cxx:26-55 | adding kernel[k] times the sample extends the tap sum by one tap |
| ConvolveFir.PixelSum | src/convolve_fir.cxx:21-56 | the running sum of one output equals Output: Σ kernel[k] * x[tap k] |
| ConvolveFir.StorePixel | src/convolve_fir.cxx:31-58 | exactly output j of the line changes, to its Output value |
| ConvolveFir.StoreNext | src/convolve_fir.cxx:31-58 | the outputs before j keep their values and output j joins them |
| ConvolveFir.StoreRange | src/convolve_fir.cxx:20-59 | one of the three loops writes its outputs and nothing else |
| ConvolveFir.ConvolveLine | src/convolve_fir.cxx:18-59 | the three loops partition [0, n_pixels): every output of the line is written once with its Output value and nothing else changes |
| ConvolveFir.ConvolveNextLine | src/convolve_fir.cxx:12-16 | line i joins the lines already written; the input is unchanged |
| ConvolveFir.ConvolveLines | src/convolve_fir.cxx:12-60 | every line is convolved into its own output positions and nothing else is written |
| ConvolveFir.InnerSingle | src/convolve_fir.cxx:9-61 | line i is read and written at i * n_pixels with unit pixel step |
| ConvolveFir.OuterSingle | src/convolve_fir.cxx:63-115 | pixel j of line i is read and written at i + j * n_times |
| ConvolveFir.SingleReadBack | src/convolve_fir.cxx:15-16 | afterwards, the output element of line i, pixel j, holds Output of line i of the input |
| ConvolveFirNosimd.InnerSingleNoavx | src/convolve_fir_nosimd.cxx:9-63 | line i is read and written at i * dim_stride with unit pixel step; every output of every line is written once with its Output value and nothing else changes |
| ConvolveFirNosimd.OuterSingleNoavx | src/convolve_fir_nosimd.cxx:65-119 | line i is read from input + i and written at output + i * dim_stride, pixel j at j * pixel_stride in both; every output is written once and nothing else changes |
| ConvolveFirNosimd.InnerNoavxReadBack | src/convolve_fir_nosimd.cxx:17-18 | with dim_stride >= n_pixels, the output element of line i, pixel j holds Output of line i of the input |
| ConvolveFirNosimd.OuterNoavxMovesLines | src/convolve_fir_nosimd.cxx:73-74 | line i >= 1 is written where it was read exactly when dim_stride is 1 |
| ConvolveFirNosimd.OuterNoavxReadBack | src/convolve_fir_nosimd.cxx:73-74 | with dim_stride 1 and pixel_stride >= n_times, the output element of line i, pixel j holds Output of line i of the input |
| FirConvolveNosimd.Entry | src/fir_convolve_nosimd.c:48-56 | entry k of each of the four tables is the variant for kernel length k + 1 with that table's border on both sides and that table's symmetry |
| FirConvolveNosimd.Select | src/fir_convolve_nosimd.c:69-92 | a table entry is selected exactly when 1 <= len <= 20 and the border is mirror or optimistic; the index is below 20 |
| FirConvolveNosimd.SelectedEntryFitsKernel | src/fir_convolve_nosimd.c:77-94 | the selected table is the one for the border and symmetry, and entry len - 1 handles exactly that kernel length |
| FirConvolveNosimd.Chosen | src/fir_convolve_nosimd.c:94 | the implementation called has the kernel's length and symmetry and the requested border on both sides |
| FirConvolveNosimd.ConvolveFirInner | src/fir_convolve_nosimd.c:58-95 | returns true exactly when a variant is selected, and then the output holds the selected variant's result for every line; on false the output is unchanged |
| FirConvolveAvx.Suffix | src/fir_convolve_avx.c:49-53 | entry n of a generated table is named for kernel length n + 1, except the last entry, which is the runtime-length implementation |
| FirConvolveAvx.Record | src/fir_convolve_avx.c:66-87 | each selection record names the table whose direction, border codes and symmetry it serves, and its borders are the enumerators for those codes |
| FirConvolveAvx.SelectionList | src/fir_convolve_avx.c:83-87 | each direction has 18 selection records |
| FirConvolveAvx.FirstMatch | src/fir_convolve_avx.c:98-107 | the index found is the first record from the start position that matches the borders and symmetry; when none is found, no record matches |
| FirConvolveAvx.Search | src/fir_convolve_avx.c:96-110 | the loop returns exactly the first matching record, or none |
| FirConvolveAvx.RecordIndex | src/fir_convolve_avx.c:83-87 | record 6x + 2y + b decodes back to left code x, right code y and symmetry bit b |
| FirConvolveAvx.RecordFor | src/fir_convolve_avx.c:83-87 | record 6x + 2y + b is in range and matches enumerators x and y with that symmetry |
| FirConvolveAvx.RecordsCover | src/fir_convolve_avx.c:83-110 | with distinct enumerators the search succeeds exactly when both borders are among them, and the table found serves the requested direction, borders and symmetry |
| FirConvolveAvx.LongKernelIndexOutOfBounds | src/fir_convolve_avx.c:112-113 | for a kernel longer than 20 the index as written is 20, one past the end of a 20-entry table |
| FirConvolveAvx.Index | src/fir_convolve_avx.c:112-115 | the corrected index is always inside the table and agrees with the written one exactly when len <= 20 |
| FirConvolveAvx.SelectedEntryServes | src/fir_convolve_avx.c:49-53 | the selected entry runs the kernel: its own length below 20, the runtime-length variant from 20 on |
| FirConvolveAvx.FindFn | src/fir_convolve_avx.c:89-116 | corrected: no implementation for an empty kernel or when no record matches; otherwise the entry at index min(length, FF_UNROLL) − 1, where the code uses FF_UNROLL for a longer kernel, in the first matching record's table |
| FirConvolveAvx.ConvolveFir | src/fir_convolve_avx.c:120-152 | corrected: an implementation is found exactly when the kernel is non-empty and both borders are known; it has the requested direction, borders and symmetry and serves the kernel length; the result is false without one and the implementation's result otherwise |
| FirConvolve.Driver.Init | src/fir_convolve.c:32-36 | both pass pointers are bound: the inner one to the inner FIR convolution, the outer one to the outer |
| FirConvolve.HorizontalArgs | src/fir_convolve.c:43-44 | the horizontal pass runs along x over the y lines with the x kernel and mirror borders on both sides |
| FirConvolve.VerticalArgs | src/fir_convolve.c:47-48 | the vertical pass runs along y over the x lines with the y kernel and mirror borders on both sides |
| FirConvolve.Filter2dLength | src/fir_convolve.c:42-48 | when both passes keep the buffer length, the 2-D filter keeps it too |
| FirConvolve.HorizontalFailureStops | src/fir_convolve.c:43-45 | a failing horizontal pass fails the filter, and the vertical pass is not run |
| FirConvolve.VerticalPassInPlace | src/fir_convolve.c:43-48 | after a successful horizontal pass, the filter's result is the vertical pass over the output buffer, in place |
| FirConvolve.Driver.Convolve2d | src/fir_convolve.c:38-52 | a region other than the whole image (not all four bounds 0) returns false and leaves the output alone; the whole image gives the two-pass result |
| Array2d.Image.constructor | src/array.c:30-35 | a descriptor records n_x, n_y and the channel count, with stride_x = channels and stride_y = channels · n_x, over a buffer of channels · n_y · n_x floats |
| Array2d.Alloc | src/array.c:22-48 | an image comes back exactly when both allocations succeed; it is packed, sized channels · n_y · n_x, and the heap gains exactly its descriptor and buffer; when the buffer allocation fails the descriptor is freed again, so a failure leaves the heap as it was |
| Array2d.Free | src/array.c:50-54 | freeing an image removes exactly its buffer and its descriptor from the heap |
| FirFilters.GaussianArg | src/fir_filters.c:33-37 | the kernel handed to the convolution has the half-length of the Gaussian of that order and scale, len + 1 coefficients, and is symmetric exactly for even derivative orders |
| FirFilters.NewKernel | src/fir_filters.c:33-39 | a kernel comes back exactly when the order and scale are accepted and both allocations succeed; it adds exactly its two blocks to the heap and carries the Gaussian's coefficients; on failure the heap is unchanged |
| FirFilters.Release | src/fir_filters.c:44-47 | freeing a kernel removes exactly its two blocks; a null kernel is skipped |
| FirFilters.TwoReleased | src/fir_filters.c:43-47 | freeing two freshly added kernels in allocation order returns the heap to what it was |
| FirFilters.ThreeReleased | src/fir_filters.c:83-89 | freeing three freshly added kernels in allocation order returns the heap to what it was |
| FirFilters.NewKernels2 | src/fir_filters.c:30-39 | either both kernels exist or none does, exactly when both orders are feasible and the four allocations succeed; on success the heap gains exactly their blocks |
| FirFilters.NewKernels3 | src/fir_filters.c:55-69 | either all three kernels exist or none does, exactly when all orders are feasible and the six allocations succeed; on success the heap gains exactly their blocks |
| FirFilters.ReleaseKernels2 | src/fir_filters.c:116-120 | the heap returns to its state before the two kernels were allocated |
| FirFilters.ReleaseKernels3 | src/fir_filters.c:83-89 | the heap returns to its state before the three kernels were allocated |
| FirFilters.Gaussian2d | src/fir_filters.c:26-49 | the heap is left as it was; the filter succeeds only with both kernels, and then the output is the two-pass convolution with the same Gaussian kernel along both axes; without kernels the output is untouched |
| FirFilters.HogPasses | src/fir_filters.c:71-81 | xx uses the second derivative along x, then yy along y, then xy the first derivative along both; the first failure stops the rest and leaves the later outputs untouched |
| FirFilters.Hog2d | src/fir_filters.c:51-91 | the heap is left as it was; with all three kernels the outputs are as the three passes compute them, in order; without them no output is touched |
| FirFilters.DerivPasses | src/fir_filters.c:108-114 | out0 gets the derivative along x, then out1 the derivative along y; a failing first pass leaves out1 untouched |
| FirFilters.Deriv2dInner | src/fir_filters.c:93-122 | the heap is left as it was; with both kernels the two derivative images are computed in order; without them neither output is touched |
| FirFilters.DerivResultCombines | src/fir_filters.c:134-141 | the result succeeds exactly when both derivative passes do; a failing x pass leaves the output as the y pass found it; on success each combined element is the chosen operation applied to the pair of derivatives |
| FirFilters.DerivOp | src/fir_filters.c:138-141 | the combination is the square root of the sum of squares exactly when do_sqrt is set, otherwise the plain sum |
| FirFilters.Deriv2d | src/fir_filters.c:124-147 | the heap is left as it was, the scratch image included; with the scratch image and both kernels the output is the combination of the two derivative images; otherwise the output is untouched |
| FirFilters.Gradmag2d | src/fir_filters.c:149-153 | gradient magnitude: first derivatives combined by the square root of the sum of squares |
| FirFilters.Laplacian2d | src/fir_filters.c:155-159 | Laplacian: second derivatives combined by their sum |
| FirFilters.TensorIgnoresScratch | src/fir_filters.c:170-199 | when the products cover the whole scratch image, the structure tensor does not depend on what that image held before |
| FirFilters.SmoothProduct | src/fir_filters.c:186-188 | the scratch image takes the element-wise product, then the output is its order-0 Gaussian smoothing when the kernels exist, and untouched otherwise |
| FirFilters.NewImages3 | src/fir_filters.c:170-180 | either all three scratch images exist or none does, exactly when the six allocations succeed; they are distinct, sized like the input, and the heap gains exactly their blocks |
| FirFilters.ReleaseImages3 | src/fir_filters.c:202-207 | the heap returns to its state before the three scratch images were allocated |
| FirFilters.ProductSteps | src/fir_filters.c:186-199 | the structure tensor's product-and-smooth steps: dx·dx into xx, dy·dy into yy, dx·dy into xy, stopping at the first failure |
| FirFilters.TensorPasses | src/fir_filters.c:182-199 | both derivatives at the inner scale, then the three smoothed products at the outer scale, as the tensor result describes |
| FirFilters.StructureTensor | src/fir_filters.c:161-208 | the heap is left as it was; when every allocation succeeds the three outputs are the structure tensor result; when the scratch images cannot be allocated it fails and no output is touched |
| Linalg.Combine2 | src/library/linalg.c:208-230 | element i of the output is the combination of elements i of the two inputs for every i < n, the old inputs even when the output is one of them; nothing from n on changes |
| Linalg.Combine3 | src/library/linalg.c:214-236 | element i of the output is the three-input combination for every i < n; nothing from n on changes |
| Linalg.Combine2d | src/library/linalg.c:286-302 | the combination covers n_y * stride_y elements of the first operand, the whole buffer of a packed image, and leaves the rest of the output alone |
| Linalg.CombineMul3d | src/library/linalg.c:304-308 | element-wise products over n_z * stride_z elements; the rest of the output is unchanged |
| Linalg.Combine3d | src/library/linalg.c:310-320 | the three-input combination over n_z * stride_z elements; the rest of the output is unchanged |
| Linalg.Discriminant | src/library/linalg.c:54-57 | the value under the square root is never negative |
| Linalg.Ev2dPixel | src/library/linalg.c:52-69 | the first root is never smaller than the second |
| Linalg.Ev2dTraceDeterminant | src/library/linalg.c:52-69 | when the square root is exact, the two roots sum to the trace and multiply to the determinant, so they are the matrix's eigenvalues |
| Linalg.Ev2d | src/library/linalg.c:44-71 | for every i < len the fourth buffer, ev_big, gets the larger root and the fifth, ev_small, the smaller; nothing else is written |
| Linalg.LinalgEv2d | src/library/linalg.c:280-284 | as written, with the default routine bound, the buffer the caller passes as ev_small receives the larger root |
| Linalg.Ev2dDiagonalRoots | src/library/linalg.c:52-69 | for diag(2, 0) the two roots differ, so swapping the output buffers is visible |
| Linalg.LinalgEv2dOrdered | src/library/linalg.c:280-284 | with the outputs in the entry point's order, ev_small receives the smaller root and ev_big the larger, for every i < len |
| Linalg.Max | src/library/linalg.c:127-133 | the result is one of the two arguments and at least both |
| Linalg.MaxElement | src/library/linalg.c:150-153 | the largest absolute entry: at least every entry's magnitude, and zero exactly for the zero matrix |
| Linalg.ADiv3 | src/library/linalg.c:175-179 | the clamped aDiv3 is never positive |
| Linalg.Q | src/library/linalg.c:181-185 | the clamped q is never positive |
| Linalg.SqrtArgumentsNonNegative | src/library/linalg.c:187-188 | both square roots take a non-negative argument |
| Linalg.SortNetworkSorts | src/library/linalg.c:195-200 | the three conditional swaps leave the roots in descending order and a permutation of the original ones |
| Linalg.ScalePreservesOrder | src/library/linalg.c:202-204 | scaling descending roots back by the positive largest entry keeps them descending |
| Linalg.Ev3dDescending | src/library/linalg.c:141-205 | every pixel's three eigenvalue estimates come out in descending order, and the zero matrix gives three zeros |
| Linalg.Swap | src/library/linalg.c:120-125 | the two values are exchanged |
| Linalg.Sort | src/library/linalg.c:195-200 | the swaps compute the sorting network, whose result is descending and a permutation of the input |
| Linalg.Eigen3 | src/library/linalg.c:142-204 | one pixel: the overflow guard, the normalisation, the clamps, the swaps and the rescaling give the pixel function's value |
| Linalg.Ev3d | src/library/linalg.c:135-206 | for every i < len the three outputs hold the pixel's descending eigenvalue estimates; nothing from len on changes |
| Linalg.Routines.Init | src/library/linalg.c:246-271 | the combinations and ev2d use AVX exactly when AVX is available; ev3d prefers AVX2, then AVX, then the default |
| ConvolveIir.Recur | src/convolve_iir.cxx:54-69 | a pass produces one sum per sample fed |
| ConvolveIir.RecurAt | src/convolve_iir.cxx:55-68 | the sum of step t is the feed-coefficient dot product with the last four samples (shifted by one step in the anticausal pass) minus the d dot product with the last four sums |
| ConvolveIir.RecurCausal | src/convolve_iir.cxx:54-69 | the recurrence is causal: step t depends only on the samples fed up to step t (up to t - 1 in the anticausal pass) |
| ConvolveIir.LeftWarmup | src/convolve_iir.cxx:37-40 | the left warm-up feeds x[nb], x[nb - 1], ..., x[1] |
| ConvolveIir.CausalFeed | src/convolve_iir.cxx:37-69 | the causal pass is fed the left warm-up, then the line in order |
| ConvolveIir.AntiFeed | src/convolve_iir.cxx:76-107 | the anticausal pass is fed x[n - nb], ..., x[n - 1] in increasing order, then the line backwards |
| ConvolveIir.Reverse | src/convolve_iir.cxx:93 | element i of the reversed line is element n - 1 - i of the line |
| ConvolveIir.Combine | src/convolve_iir.cxx:107 | output pixel i is the causal sum at pixel i plus the anticausal sum formed when pixel i is visited backwards |
| ConvolveIir.LineOutput | src/convolve_iir.cxx:27-108 | the filtered line has the line's length |
| ConvolveIir.WarmupBorders | src/convolve_iir.cxx:37-90 | the causal warm-up extends the line by reflect-101 (x[-1] = x[1]); the anticausal warm-up by the half-sample rule (x[n] = x[n - 1]); every index read is in range |
| ConvolveIir.AnticausalExcludesCurrent | src/convolve_iir.cxx:93-107 | the anticausal sum added to pixel i does not depend on x[i] unless x[i] is one of the right warm-up samples |
| ConvolveIir.RecurAdditive | src/convolve_iir.cxx:54-69 | the recurrence of a sum of inputs is the sum of the recurrences |
| ConvolveIir.RecurHomogeneous | src/convolve_iir.cxx:54-69 | the recurrence of a scaled input is the scaled recurrence |
| ConvolveIir.LineOutputAdditive | src/convolve_iir.cxx:27-108 | the line filter is additive |
| ConvolveIir.LineOutputHomogeneous | src/convolve_iir.cxx:27-108 | the line filter is homogeneous |
| ConvolveIir.ZeroInZeroOut | src/convolve_iir.cxx:27-108 | a zero line filters to a zero line |
| ConvolveIir.InnerLines | src/convolve_iir.cxx:28-29 | the inner layout keeps the n_times lines of n_pixels inside n_times * n_pixels elements without overlap |
| ConvolveIir.OuterLines | src/convolve_iir.cxx:122-123 | the outer layout keeps its lines apart when the stride is at least n_times |
| ConvolveIir.LeftBorder | src/convolve_iir.cxx:33-51 | after the left warm-up the two registers hold the last samples fed and the last sums formed |
| ConvolveIir.CausalPass | src/convolve_iir.cxx:54-69 | the scratch line holds the causal sums of the line's own steps |
| ConvolveIir.RightBorder | src/convolve_iir.cxx:72-90 | after the right warm-up the registers hold the last right-end samples and the anticausal sums formed over them |
| ConvolveIir.AnticausalPass | src/convolve_iir.cxx:93-108 | each output pixel of the line is the scratch value plus its anticausal sum; nothing off the line changes |
| ConvolveIir.FilterLine | src/convolve_iir.cxx:27-108 | every pixel of the line gets the filtered line's value; nothing off the line changes |
| ConvolveIir.FilterLines | src/convolve_iir.cxx:27-109 | every line of the layout is filtered from the old input, and elements on no line keep their old value |
| ConvolveIir.OutputsAt | src/convolve_iir.cxx:27-29 | entry dim of the expected outputs is the filtered line dim of the input |
| ConvolveIir.InnerSingle | src/convolve_iir.cxx:19-110 | pixel i of line dim, at dim * n_pixels + i, holds the filtered line of the old input; nothing from n_times * n_pixels on changes |
| ConvolveIir.InnerBeyond | src/convolve_iir.cxx:28-29 | no element from n_times * n_pixels on belongs to an inner line |
| ConvolveIir.OuterSingle | src/convolve_iir.cxx:112-204 | pixel i of line dim, at dim + i * stride, holds the filtered line of the old input; elements on no line keep their value |
| ConvolveIirDeriche.FromEight | src/convolve_iir_deriche.cxx:41-48 | the eight-value constructor makes alpha1, alpha3 the conjugates of alpha0, alpha2 (halved a0 ± i a1, a2 ± i a3) and lambda1, lambda3 those of lambda0, lambda2 |
| ConvolveIirDeriche.FromSix | src/convolve_iir_deriche.cxx:50-57 | the six-value constructor makes one conjugate pair and repeats the real third pole and weight |
| ConvolveIirDeriche.FromFour | src/convolve_iir_deriche.cxx:59-65 | the four-value constructor makes one conjugate pair and zeroes the other two poles and weights |
| ConvolveIirDeriche.GetAlpha | src/convolve_iir_deriche.cxx:67-82 | a weight exists exactly for indices 0 to 3; a larger index is the failed assertion |
| ConvolveIirDeriche.GetLambda | src/convolve_iir_deriche.cxx:84-99 | a pole exists exactly for indices 0 to 3; a larger index is the failed assertion |
| ConvolveIirDeriche.TableConjugate | src/convolve_iir_deriche.cxx:105-114 | the three tabulated filters consist of two conjugate pairs of weights and poles, so the sum of the weights is real |
| ConvolveIirDeriche.Alphas | src/convolve_iir_deriche.cxx:129-130 | the four weights loaded are the table entry's |
| ConvolveIirDeriche.Betas | src/convolve_iir_deriche.cxx:131-133 | beta_i is -exp(-Re lambda_i / sigma) times (cos, -sin) of Im lambda_i / sigma |
| ConvolveIirDeriche.EvalTimesLinear | src/convolve_iir_deriche.cxx:152-155 | multiplying coefficients by (1 + beta z) in place multiplies the polynomial's value by that factor |
| ConvolveIirDeriche.EvalAdd | src/convolve_iir_deriche.cxx:149-150 | adding coefficient lists adds the polynomials' values |
| ConvolveIirDeriche.EvalScale | src/convolve_iir_deriche.cxx:149-150 | scaling the coefficients scales the polynomial's value |
| ConvolveIirDeriche.DenomPoly | src/convolve_iir_deriche.cxx:140-156 | after m poles the denominator has m + 1 coefficients |
| ConvolveIirDeriche.NumerPoly | src/convolve_iir_deriche.cxx:139-150 | after m poles the numerator has m coefficients |
| ConvolveIirDeriche.DenomPolyValue | src/convolve_iir_deriche.cxx:140-156 | the denominator polynomial is the product of the factors (1 + beta_k z) |
| ConvolveIirDeriche.NumerPolyValue | src/convolve_iir_deriche.cxx:139-150 | the numerator polynomial is the sum over k of alpha_k times the product of the other factors: the partial fractions over a common denominator |
| ConvolveIirDeriche.DenomPolyHead | src/convolve_iir_deriche.cxx:140 | the constant term of the denominator is 1 |
| ConvolveIirDeriche.DenomPolyTop | src/convolve_iir_deriche.cxx:141-152 | the leading denominator coefficient is the product of the poles |
| ConvolveIirDeriche.DenomPolyLinear | src/convolve_iir_deriche.cxx:141-155 | the linear denominator coefficient is the sum of the poles |
| ConvolveIirDeriche.NumerPolyHead | src/convolve_iir_deriche.cxx:139-150 | the constant numerator coefficient is the sum of the weights |
| ConvolveIirDeriche.NumerPolyHeadStep | src/convolve_iir_deriche.cxx:149-150 | each pole adds its weight to the constant numerator coefficient |
| ConvolveIirDeriche.EvalRe | src/convolve_iir_deriche.cxx:159-160 | at a real point the real part of the polynomial's value is the polynomial of the real parts |
| ConvolveIirDeriche.Sign | src/convolve_iir_deriche.cxx:164-166 | the sign is -1 exactly for the first derivative and 1 otherwise |
| ConvolveIirDeriche.AnticausalNumerator | src/convolve_iir_deriche.cxx:168-170 | the anticausal numerator of equations 31 and 32 satisfies x · na(x) = sign · (nc(x) - nc0 · (1 + x d(x))) at every x |
| ConvolveIirDeriche.Deriche | src/convolve_iir_deriche.cxx:119-171 | an order above 2 is the "Order must be 0, 1 or 2." error, and every other order gives coefficients |
| ConvolveIirDeriche.DericheReadout | src/convolve_iir_deriche.cxx:129-171 | the coefficients are read off the expanded numerator and denominator of the table entry's weights and poles, with the order's gain and sign |
| ConvolveIirDeriche.DericheDenominator | src/convolve_iir_deriche.cxx:136-160 | at every real x, 1 + d0 x + ... + d3 x^4 is the real part of the product of the four factors; d0 is the real part of the sum of the poles and d3 that of their product |
| ConvolveIirDeriche.DericheNumerator | src/convolve_iir_deriche.cxx:136-159 | at every real x the gain times the causal numerator is the real part of the partial-fraction numerator; the gain times n0 is the real sum of the weights |
| ConvolveIirDeriche.DericheAnticausal | src/convolve_iir_deriche.cxx:163-170 | the anticausal numerator computed satisfies the relation of equations 31 and 32 with the order's sign |
| ConvolveIirDeriche.TimesLinearInPlace | src/convolve_iir_deriche.cxx:152-155 | the first len + 1 entries become the product of the old len entries with (1 + beta z); the rest are unchanged |
| ConvolveIirDeriche.AddScaledInPlace | src/convolve_iir_deriche.cxx:149-150 | the first len entries become the old ones plus c times the other list; the rest are unchanged |
| ConvolveIirDeriche.LoadPoles | src/convolve_iir_deriche.cxx:129-134 | the two fresh arrays hold the table entry's weights and the scaled poles |
| ConvolveIirDeriche.Expand | src/convolve_iir_deriche.cxx:136-156 | the two fresh arrays hold the numerator and denominator polynomials of the four poles |
| ConvolveIirDeriche.ReadOff | src/convolve_iir_deriche.cxx:158-170 | the float coefficients are the readout of the two polynomials with the gain and sign given |
| ConvolveIirDeriche.ComputeCoefs | src/convolve_iir_deriche.cxx:119-171 | the loops compute exactly the Deriche coefficients, the order error included |
| ConvolveIirDeriche.BorderWidth | src/convolve_iir_deriche.cxx:182 | n_border is (3 + 0.5 order) sigma truncated towards zero |
| ConvolveIirDeriche.NewCoefficients | src/convolve_iir_deriche.cxx:178-184 | the constructor fails with the order error exactly for orders above 2; otherwise it records sigma, order, the border width and the Deriche coefficients |
| PythonCore.CStrides | src/python/core.cxx:365-383 | the byte strides of a C-ordered float32 array: one per axis, the last one the size of a float |
| PythonCore.ConversionError | src/python/core.cxx:129-153 | the conversion fails exactly when the buffer has fewer axes than the view ("Too few dimensions.") or its one extra axis is not a dense channel axis of fewer than 8 entries (the channel message) |
| PythonCore.ConvertPy2ff2d | src/python/core.cxx:124-154 | with at least two axes the view takes pointer, extents and float strides of the last two spatial axes, x last; the channel count is written only when the conversion succeeds; with fewer axes the view is untouched |
| PythonCore.ConvertPy2ff3d | src/python/core.cxx:124-154 | the same for three spatial axes z, y, x |
| PythonCore.ContiguousConversion2d | src/python/core.cxx:129-153 | a C-contiguous input converts to a 2-D view exactly when it has two axes or a third of fewer than 8 channels; its x stride is then the channel count and its y stride the channel count times the width |
| PythonCore.ContiguousConversion3d | src/python/core.cxx:129-153 | the same for a 3-D view: three axes, or a fourth of fewer than 8 channels, with strides c, c·nx and c·nx·ny |
| PythonCore.NewPyKernel | src/python/core.cxx:38-44 | the kernel pair is created unless order > 2, sigma < 0 or an allocation fails, which raises "fastfilters_kernel_fir_gaussian returned NULL." and leaves no block live; a created kernel carries the order, sigma, the half length and the sampled coefficients |
| PythonCore.ConvolveFir | src/python/core.cxx:165-212 | a kernel list of other than two or three entries raises "Invalid number of dimensions."; otherwise the conversion error is raised if any, and a success passes the kernels in order to the 2-D or 3-D convolution, which accepted them |
| PythonCore.LinalgEv2dBinding | src/python/core.cxx:66-94 | a matrix raises unless it has two axes and its first has 3 entries; the result is a fresh C-ordered 2×n array whose row 0 receives ev_small and row 1 ev_big, over n pixels |
| PythonCore.Ev2dRowsOfMatrix | src/python/core.cxx:82-85 | xx, xy and yy are read from rows 0, 1 and 2 of the input matrix |
| PythonCore.Ev2dIgnoresColumnStride | src/python/core.cxx:66-91 | the call handed to the library does not depend on the matrix's column stride |
| PythonCore.EvShape2d | src/python/core.cxx:360-384 | the 2-D eigenvalue result is 2 × ny × nx, with a trailing channel axis exactly when there is more than one channel, and holds 2 values per input pixel and channel |
| PythonCore.EvShape3d | src/python/core.cxx:434-462 | the 3-D result is 3 × nz × ny × nx, with a trailing channel axis exactly when there is more than one channel |
| PythonCore.EvLayout2d | src/python/core.cxx:355-387 | the hand-built 2-D output strides are the C strides of its shape, and the component stride is one float times the pixel count |
| PythonCore.EvLayout3d | src/python/core.cxx:429-465 | the hand-built 3-D output strides are the C strides of its shape, and the component stride is one float times the pixel count |
| PythonCore.SolverOrderConsistent | src/python/core.cxx:476-480 | the Hessian passed with its axes listed z, y, x gives the solver the same eigenvalues as the x, y, z order, largest first |
| PyArrays.Fresh | src/python/core.cxx:156-160 | a fresh result array of the core module is float32, C-contiguous and of the requested shape |
| PyArrays.AsContiguous | src/python_fastfilters/__init__.py:15 | `np.ascontiguousarray` keeps the extents and the dtype, gives C strides, and returns a plain array without axis tags |
| PyArrays.TaggedContiguous | src/python/__init__.py:24 | `taggedView(ascontiguousarray(a), a.axistags)` keeps the extents, the dtype and the axis tags, and gives C strides |
| PyArrays.Permute | src/python_fastfilters/__init__.py:11-12 | a permuted sequence holds at position i the entry at axes[i] |
| PyArrays.Reverse | src/python_fastfilters/__init__.py:11 | `[::-1]` holds at position i the entry at n-1-i |
| PyArrays.ReverseIsPermutation | src/python_fastfilters/__init__.py:11-20 | the reversal of a permutation of n axes is again one, so `transpose(permutation[::-1])` is accepted |
| PyArrays.IndexOf | src/python_fastfilters/__init__.py:20 | the first position holding a value |
| PyArrays.Inverse | src/python_fastfilters/__init__.py:12-20 | the inverse permutation maps every axis back to the position it was moved from |
| PyArrays.InverseIsPermutation | src/python_fastfilters/__init__.py:12-20 | the inverse of a permutation is a permutation and undoes it pointwise |
| PyArrays.InverseRestores | src/python_fastfilters/__init__.py:12-20 | transposing by p and then by the inverse of p restores any per-axis sequence |
| PyArrays.PermuteAppend | src/python/__init__.py:74-76 | permuting with a trailing axis that stays last keeps that axis last |
| PyArrays.Transpose | src/python_fastfilters/__init__.py:12-20 | `transpose(axes)` succeeds exactly for a permutation of the array's axes, permuting extents, strides and axis tags, and raises ValueError otherwise |
| PyArrays.Rolled | src/python/__init__.py:76-85 | `np.rollaxis(res, 0, ndim)` moves the leading axis to the end |
| PyArrays.NonUnitAxes | src/python/__init__.py:25-57 | the axes squeezing keeps are in range and have an extent other than 1 |
| PyArrays.Squeeze | src/python/__init__.py:25-57 | `squeeze()` leaves no axis of extent 1 |
| PyArrays.NoUnitAxesKept | src/python/__init__.py:34-57 | without an axis of extent 1 squeezing keeps every axis, in order |
| PyArrays.SqueezeNoUnitAxes | src/python/__init__.py:34-57 | squeezing an array without an axis of extent 1 returns it unchanged |
| PyArrays.CoreResult | src/python/core.cxx:488-503 | a core filter raises only when the conversion of its C-contiguous input fails; otherwise it returns a fresh C-contiguous array shaped like the input, or the component-first eigenvalue layout |
| PyArrays.Wrapped | src/python/__init__.py:75-85 | a shape-keeping filter returns the input's shape after the eigenvalue roll, and the roll keeps the result well formed |
| PyArrays.EigenComponentsLast | src/python/__init__.py:74-85 | for an input without an axis of extent 1 the rolled eigenvalue result is the input's shape followed by its 2 or 3 components |
| PythonPackage.FirstIndex | src/python/__init__.py:49 | vigra's `axistags.index`: the first position holding the kind, or the length when none does |
| PythonPackage.GetFn | src/python/__init__.py:40-63 | a tagged array raises AssertionError unless it has one channel, one time step and 2 or 3 squeezed axes; the call succeeds exactly when those hold and the squeezed rank is 2 or 3, selecting the 2-D function exactly for rank 2; anything else raises NotImplementedError |
| PythonPackage.Prepared | src/python/__init__.py:22-36 | the decorator fails with AssertionError exactly for an untagged array with an axis of extent 1; what it passes on has no axis of extent 1, and an untagged array is passed unchanged |
| PythonPackage.UniqueSingleton | src/python/__init__.py:91 | `len(np.unique(order)) == 1` holds exactly when the list is non-empty and all its entries are equal |
| PythonPackage.DerivativeOrder | src/python/__init__.py:89-92 | a single order is taken as is; a list is accepted exactly when it has one entry per axis, all equal, and then gives that entry; otherwise AssertionError |
| PythonPackage.UntaggedRank | src/python/__init__.py:34-63 | an untagged array that passes the decorator reaches the 2-D function with two axes, the 3-D function with three, and NotImplementedError otherwise |
| PythonPackage.SingleChannel | src/python/__init__.py:45 | after squeezing, a tagged array has one channel exactly when it has no channel axis |
| PythonPackage.SingleTimeStep | src/python/__init__.py:49-50 | after squeezing, a tagged array has one time step exactly when it has no time axis |
| PythonPackage.TaggedPasses | src/python/__init__.py:22-55 | a tagged array passes `__get_fn` exactly when its squeezed form has 2 or 3 axes, none a channel or time axis |
| PythonPackage.SelectedConverts | src/python/__init__.py:57-63 | the core function `__get_fn` selects always converts the array it receives |
| PythonPackage.FilterOutcome | src/python/__init__.py:65-85 | every entry point ends in AssertionError, NotImplementedError or a result; a shape-keeping filter returns the received shape, an eigenvalue filter that shape followed by its components |
| PythonPackage.UniformOrderList | src/python/__init__.py:66-93 | a list repeating one order for every axis acts as that order, and order 0 is `gaussianSmoothing` |
| PythonPackage.MixedOrderListRejected | src/python/__init__.py:89-91 | a list with two different entries fails the assertion |
| PythonPackage.Apply | src/python/__init__.py:57-67 | a failing `__get_fn` passes its error on; every failure is AssertionError, NotImplementedError or RuntimeError; a result means a function was selected, is a valid array and, for a shape-keeping filter, has the shape received (see `SelectedConverts`, `FilterOutcome`) |
| PythonPackage.Filter | src/python/__init__.py:22-36 | the decorator's AssertionError is the entry point's; otherwise the prepared array is filtered, and a shape-keeping filter returns the prepared shape (see `FilterOutcome`, `TaggedPasses`, `UntaggedRank`) |
| PythonPackage.GaussianDerivative | src/python/__init__.py:88-93 | a failing decorator or a rejected order list gives AssertionError, and a result has the prepared array's shape (see `UniformOrderList`, `MixedOrderListRejected`) |
| FastfiltersPackage.GaussianSmoothingAsWritten | fastfilters/__init__.py:5-24 | as written, no call returns an array: NotImplementedError exactly for a tagged array no function is selected for, TypeError otherwise, from the returned exception object or from the keyword `window_size` the core function does not declare |
| FastfiltersPackage.GaussianSmoothing | fastfilters/__init__.py:5-24 | corrected, the window passed as `window_ratio`: failures are NotImplementedError, exactly where no function is selected, or the core's RuntimeError; an untagged array is smoothed exactly with 2 or 3 axes, or 4 with fewer than 8 channels |
| FastfiltersPackage.CallSmoothing | src/python/core.cxx:510-519 | a keyword other than the bound names `input`, `arg` and `window_ratio` raises TypeError; a declared one reaches the core function |
| FastfiltersPackage.AgreeOnlyWhenRaised | fastfilters/__init__.py:5-24 | the corrected and as-written versions agree exactly where `__get_fn` raises |
| FastfiltersPackage.TwoDimensional | fastfilters/__init__.py:23-24 | a C-contiguous untagged 3×5 array: TypeError as written, smoothed corrected |
| FastfiltersPackage.OneDimensional | fastfilters/__init__.py:20-24 | a 1-D untagged array: TypeError as written, NotImplementedError corrected |
| PythonFastfilters.GetFnAsWritten | src/python_fastfilters/__init__.py:26-42 | a tagged array either selects a function or raises; an untagged array never raises, and gets the NotImplementedError object returned exactly when it has other than 2, 3 or 4 axes |
| PythonFastfilters.GetFn | src/python_fastfilters/__init__.py:26-42 | with the exception raised instead of returned: it fails with NotImplementedError exactly where the source does not select, and otherwise selects the same function |
| PythonFastfilters.SelectedRankConverts | src/python_fastfilters/__init__.py:36-40 | the function selected for an untagged C-contiguous array converts it, except a 4-D array whose last axis has 8 or more channels |
| PythonFastfilters.FixLayout | src/python_fastfilters/__init__.py:9-15 | a C-contiguous or non-float32 array passes unchanged with no permutation; otherwise the axes are ordered by decreasing stride, and the array is copied C-contiguous exactly when the new last stride is not one float; the transposed view keeps its tags permuted, the copy has none |
| PythonFastfilters.CopyDropsTags | src/python_fastfilters/__init__.py:9-41 | a tagged 4×6×5 array with axes time, space, space and strides 8, 32, 192 is reordered and copied without tags, so the 3-D function is chosen from the last extent where the tagged view would raise NotImplementedError |
| PythonFastfilters.ReversedArgsort | src/python_fastfilters/__init__.py:11 | `np.argsort(strides)[::-1]` is a permutation listing the axes by decreasing stride |
| PythonFastfilters.RestoreAxes | src/python_fastfilters/__init__.py:19-20 | the corrected restoring permutation has one entry per axis of the result |
| PythonFastfilters.RestoreAxesPermutation | src/python_fastfilters/__init__.py:19-20 | the corrected restoring permutation is a permutation of the result's axes |
| PythonFastfilters.OneDimensionalIsTypeError | src/python_fastfilters/__init__.py:41-46 | as written, a 1-D untagged array ends in TypeError, by calling the returned exception object |
| PythonFastfilters.TwoAxisRestoreSwaps | src/python_fastfilters/__init__.py:12-20 | for two axes, transposing by p and then by p reversed swaps the axes instead of restoring them |
| PythonFastfilters.FortranLayout | src/python_fastfilters/__init__.py:10-15 | a Fortran-ordered 3×5 float32 array is transposed to a C-contiguous 5×3 view with permutation [1, 0] |
| PythonFastfilters.SwappedAccepted | src/python_fastfilters/__init__.py:36-64 | the transposed 5×3 view selects the 2-D function, which returns 5×3, or 2×5×3 for eigenvalues |
| PythonFastfilters.AsWrittenSteps | src/python_fastfilters/__init__.py:8-22 | the decorated function as written is: fix the layout, apply, restore with the reversed permutation |
| PythonFastfilters.SwapRestoredAsWritten | src/python_fastfilters/__init__.py:19-20 | as written, a 5×3 result is "restored" with [1, 0], which for two axes is the forward permutation, leaving 5×3 |
| PythonFastfilters.ThreeAxesRestoredAsWritten | src/python_fastfilters/__init__.py:19-64 | as written, a result with a third (component) axis cannot be transposed by a two-entry permutation: ValueError |
| PythonFastfilters.FortranSmoothingTransposed | src/python_fastfilters/__init__.py:44-46 | as written, smoothing a Fortran-ordered 3×5 array returns a 5×3 array |
| PythonFastfilters.FortranEigenvaluesRaise | src/python_fastfilters/__init__.py:52-55 | as written, the Hessian eigenvalues of a Fortran-ordered 3×5 array raise ValueError |
| PythonFastfilters.FilterNeverTypeError | src/python_fastfilters/__init__.py:26-46 | corrected, no entry point ends in TypeError, and a shape `__get_fn` rejects ends in NotImplementedError |
| PythonFastfilters.FilterKeepsShape | src/python_fastfilters/__init__.py:7-24 | corrected, a shape-keeping filter returns the shape of its input, whatever the input's strides |
| PythonFastfilters.EigenvaluesComponentsLast | src/python_fastfilters/__init__.py:7-64 | corrected, an eigenvalue filter returns the input's shape followed by the 2 or 3 components |
| PythonFastfilters.RestoreAsWritten | src/python_fastfilters/__init__.py:19-20 | as written: with no permutation the result is returned unchanged; otherwise the transpose by the reversed permutation succeeds exactly when that is a permutation of the result's axes, gives the permuted shape, and fails only with ValueError (see `SwapRestoredAsWritten`, `ThreeAxesRestoredAsWritten`) |
| PythonFastfilters.Restore | src/python_fastfilters/__init__.py:19-20 | corrected: with no permutation the result is unchanged; it succeeds exactly when the permutation has no more entries than the result has axes, fails only with ValueError, and for equal ranks transposes by the inverse permutation (see `EigenvaluesComponentsLast`) |
| PythonFastfilters.ApplyAsWritten | src/python_fastfilters/__init__.py:17 | as written: a raising `__get_fn` gives NotImplementedError, a returned exception object gives TypeError, a selected core function fails only with RuntimeError, and a result is a valid array of the input's shape for a shape-keeping filter (see `OneDimensionalIsTypeError`) |
| PythonFastfilters.FilterAsWritten | src/python_fastfilters/__init__.py:8-22 | as written: an array that is C-contiguous or not float32 is handed to the filter untouched, and every failure is NotImplementedError, TypeError, RuntimeError or ValueError (see `AsWrittenSteps`, `FortranSmoothingTransposed`, `FortranEigenvaluesRaise`) |
| PythonFastfilters.Filter | src/python_fastfilters/__init__.py:8-22 | corrected: an array that is C-contiguous or not float32 goes straight to the function `__get_fn` selects, and no failure is a TypeError (see `FilterNeverTypeError`, `FilterKeepsShape`, `EigenvaluesComponentsLast`) |

## Left out

- Floating point: every computation is over exact reals. float32 rounding, infinities and NaN are not modelled, and neither is the accuracy of `exp`, `sqrt`, `atan2`, `cos`, `sin` and `pow`.
- Numerics.Div: division by zero gives 0, where IEEE gives an infinity or NaN. No stated property depends on that value: the normalisation lemmas require a non-zero divisor.
- Numeric library: `pow` with a non-negative integer exponent is `Numerics.IntPow`. The other transcendental functions are `Numerics.Libm` parameters, constrained only by the `requires` of the lemmas that need them.
- Memory.Heap.Align: requires an alignment of at least 1. The assertion at `src/library/memory.c:55` also admits 0. With 0 the mask `~(alignment - 1)` clears every bit, so the aligned address is 0 and the header is written at 2^64 − 8; that case is not modelled.
- ConvolveIirDeriche.BorderWidth: a negative `(3 + 0.5·order)·sigma` has no defined conversion to `unsigned` in C. The model takes it as 0.
- Integer widths: `size_t` and `unsigned` overflow of sizes, strides and offsets is not modelled in general. Three wrap-arounds that change behaviour are modelled explicitly, see Findings. They are the unsigned left tap of the inner variant, the unsigned left read `(i_pixel - k) * pixel_stride` of the outer variant's interior loop, and the unsigned row `n_pixels + i - KERNEL_LEN` of its closing loop.
- Negative strides are not modelled. Line and pixel strides are natural numbers.
- SIMD implementations are left out: the AVX/AVX2/FMA convolution kernels, the AVX eigenvalue and combine routines, and the AVX implementation stubs. `Linalg.Routines.Init` and the dispatchers only choose between them: a chosen AVX routine is an opaque entry, not a computation.
- Hardware probing: the CPUID and XGETBV instructions are not run. Their answers are inputs to the bit tests of `Cpu`.
- FirConvolve.Driver.Convolve2d: the bound inner and outer pass functions are parameters of the driver, described by their effect. The header declarations of the passes have different signatures from their definitions, and the outer pass's own engine is modelled separately by `FirConvolveNosimdOuter`. The output is modelled as the float buffer the definition takes (src/fir_convolve.c:37-39), although the public header declares that parameter as an array record (include/fastfilters.h:92-95) and its callers `FirFilters.Gaussian2d`, `FirFilters.HogPasses` and `FirFilters.DerivPasses` pass array records (src/fir_filters.c:41-112); the model passes the record's `data` buffer, as evidently intended, and does not model the record's fields being read as floats.
- FirConvolveNosimd.ConvolveFirInner: the generated variant is handed the kernel's length and coefficients, as evidently intended. As written the dispatcher's function-pointer type takes a coefficient pointer (src/fir_convolve_nosimd.c:46) and the call passes `kernel->coefs` (src/fir_convolve_nosimd.c:94), while each variant is defined to take a kernel handle (src/fir_convolve_nosimd_impl.h:90-91) and reads its length and coefficient pointer from it (src/common.h:35-39); the model does not capture the coefficient floats being reinterpreted as that record.
- Dispatch table naming: the scalar dispatcher refers to mirror tables by a name that differs from the generated one. The model identifies MIRROR with the (mirror, mirror) variant and OPTIMISTIC with the (optimistic, optimistic) variant.
- FirConvolveNosimdOuter.ConvolveOuter: flushes only rows i >= KERNEL_LEN and reads the signed left tap. As written, the right-border loop also flushes at i < KERNEL_LEN, to a negative row, when the left border is optimistic and n_pixels < 2·KERNEL_LEN. With an optimistic left border the interior loop's read at pixel 0, tap 1 wraps to 2^32 − 1 strides after the line (`FirConvolveNosimdOuter.OuterOptimisticLeftTapWraps`). With optimistic borders and n_pixels < KERNEL_LEN, n_pixels 0 included, the closing loop copies to rows before the line, which wrap (`FirConvolveNosimdOuter.ClosingRowWraps`).
- Short lines: the line operations require a line long enough for their border handling. `FirConvolveNosimdImpl.LongEnough` demands KERNEL_LEN < n_pixels wherever a border is mirrored. `ConvolveFir.ConvolveLines` and `ConvolveFirNosimd.InnerSingleNoavx` demand a kernel no longer than the line. `ConvolveIir.FilterLines` demands a border shorter than the line. The C code accepts shorter lines and reads outside them; those reads are not modelled.
- ROI: the convolution driver rejects any non-zero ROI. Only that rejection is modelled, because no ROI computation exists in the code.
- 3-D filters: `src/fir_filters.c` defines only the 2-D filters. The 3-D filter functions the Python bindings call are not part of this model. `PyArrays.CoreResult` describes them, like the 2-D ones, by the shape contract of the binding.
- PyArrays.CoreResult: takes the library call itself to succeed. Its failure, raised as "convolution failed.", is not distinguished from a conversion failure.
- The re-tagging of the result and its `withAxes` restoration in `src/python/__init__.py` are not modelled. Tags are a list of axis kinds, and squeezing keeps them aligned.
- PythonCore.LinalgEv2dBinding: `linalg_ev2d` accepts a float matrix of any strides without a copy, and reads each row as n adjacent floats. A matrix whose column stride is not one float is therefore read at the wrong entries (`PythonCore.Ev2dIgnoresColumnStride`). The entries it then reads are not modelled.
- `np.argsort` tie order: `PythonFastfilters.FixLayout` takes any permutation sorting the strides in decreasing order. NumPy's choice among equal strides is not fixed.
- NumPy's contiguity flag for arrays with axes of extent 1 or 0 is simplified: C-contiguous means exactly the C strides of the shape.
- Derivative orders above 2 reach the core module unchecked from Python and fail in kernel construction. They are not turned into a separate Python error.
- Python binding extras: `FIRKernel.len` and `__repr__`, the kernel length getter, the GIL release around the filter calls, and negative orders, which the unsigned C parameter cannot receive.
- Window argument: the window's value is not modelled, only the keyword it is passed under. The core module's own entry points take it positionally.
- Assertion and exception message texts of the Python layer are not modelled. Only the exception kind is. The C++ messages are kept as strings.
- Concurrency: there is none to model beyond the GIL release.

## Findings

| source | as written | input that shows it | evidently intended | confidence | as-written member | corrected member |
|---|---|---|---|---|---|---|
| src/fir_convolve_nosimd_impl.h:145,148 | the optimistic left tap `i_inner - k` is computed in `unsigned int` | optimistic left border, pixel 0, tap 1: the index is 2^32 − 1 instead of −1 | the signed difference, which reads the caller's halo | not executed | FirConvolveNosimdImpl.OptimisticLeftTapWraps | FirConvolveNosimdImpl.ConvolveInner |
| src/fir_convolve_nosimd_impl.h:264,267 | the outer variant's interior read `(i_pixel - k) * pixel_stride` takes the difference in `unsigned int` | optimistic left border, pixel 0, tap 1: the read lies 2^32 − 1 strides after the line's start instead of one stride before it | the signed difference, which reads the caller's halo | not executed | FirConvolveNosimdOuter.OuterOptimisticLeftTapWraps | FirConvolveNosimdOuter.ConvolveOuter |
| src/fir_convolve_nosimd_impl.h:325-328 | the closing loop copies out row `n_pixels + i - KERNEL_LEN` in `unsigned int` for every i < KERNEL_LEN | optimistic borders, KERNEL_LEN 1, n_pixels 0: row 2^32 − 1 is written | only rows of the line are copied out | not executed | FirConvolveNosimdOuter.EmptyLineClosingRow | FirConvolveNosimdOuter.ConvolveOuter |
| src/fir_convolve_nosimd_impl.h:205,253-254,271 | the ring buffer allocates KERNEL_LEN · n_outer floats but uses KERNEL_LEN + 1 slots | any line with n_pixels > KERNEL_LEN: row KERNEL_LEN is written to slot KERNEL_LEN, past the allocation | KERNEL_LEN + 1 slots of n_outer floats | not executed | FirConvolveNosimdOuter.RingOverflows | FirConvolveNosimdOuter.ConvolveOuter |
| src/fir_convolve_nosimd_impl.h:241,253-254,279-281 | the left-border loop stores row i at offset i · n_pixels, but rows are flushed from slot i · n_outer | any image with n_pixels != n_outer: row 1 is stored at n_pixels, read back from n_outer | rows stored in the slot they are flushed from | not executed | FirConvolveNosimdOuter.LeftBorderLayoutMismatch | FirConvolveNosimdOuter.ConvolveOuter |
| src/fir_convolve_nosimd_impl.h:207-208,332-333 | the outer variant returns false on its success path too | any successful outer pass: `fastfilters_fir_convolve2d` then reports failure after writing its output (`FirConvolve.AsWrittenOuterFailsFilter`) | true after a successful pass | not executed | FirConvolveNosimdOuter.ConvolveOuterAsWritten | FirConvolveNosimdOuter.ConvolveOuter |
| src/fir_convolve_nosimd_impl.h:279-281 | a flushed row is copied with one `memcpy` of n_outer contiguous floats | outer stride 3: element 1 of row 0 lands at offset 1 instead of 3 | element q stored at outer_stride · q | not executed | FirConvolveNosimdOuter.InterleavedCopyMisplaced | FirConvolveNosimdOuter.ConvolveOuter |
| src/fir_convolve_avx.c:112-115 | a kernel longer than FF_UNROLL indexes entry FF_UNROLL of a table with FF_UNROLL entries | kernel length 21: index 20 in a 20-entry table | the last entry, the runtime-length variant | not executed | FirConvolveAvx.LongKernelIndexOutOfBounds | FirConvolveAvx.SelectedEntryServes |
| src/library/memory.c:55,65,70,82 | the assertion permits alignments up to 254, but the header keeps only the low 8 bits of the offset | alignment 250, block at 1024: the aligned address is 1280, the offset 256 is stored as 0, and 1280 is freed instead of 1024 | alignment + 7 <= 0xff, so the offset fits in a byte | not executed | Memory.AlignFreeTruncatesOffset | Memory.AlignThenFree |
| src/fir_kernel.c:103-106 | `case 1` has no `break`, so order 1 takes the order-2 factor | order 1: the centre tap is g instead of 0 | x · g for order 1, as in the library kernel | not executed | FirKernelLegacy.Order1CentreTap | FirKernel.FillSamples |
| src/library/linalg.c:44-45,280-284 | `_ev2d_default` names its fourth parameter ev_big, the entry point passes ev_small there | diag(2, 0): the buffer passed as ev_small receives 2, the one passed as ev_big 0 | ev_small receives the smaller root | not executed | Linalg.Ev2dDiagonalRoots | Linalg.LinalgEv2dOrdered |
| src/python_fastfilters/__init__.py:11-12,19-20 | the result is transposed back by `permutation[::-1]`, not by the inverse permutation, and the extra component axis is ignored | a Fortran-ordered 3×5 float32 array: smoothing returns 5×3, the Hessian eigenvalues raise ValueError | transposing back by the inverse, component axis last | not executed | PythonFastfilters.FortranEigenvaluesRaise | PythonFastfilters.EigenvaluesComponentsLast |
| src/python_fastfilters/__init__.py:41 | `__get_fn` returns the NotImplementedError instance, and the caller then calls it | an untagged 1-D array: TypeError | raising NotImplementedError | not executed | PythonFastfilters.OneDimensionalIsTypeError | PythonFastfilters.FilterNeverTypeError |
| fastfilters/__init__.py:20-24 | `__get_fn` returns the NotImplementedError instance, and `gaussianSmoothing` calls it; a selected function is called with the keyword `window_size`, which the bindings of `src/python/core.cxx:519` do not declare | an untagged 1-D array: TypeError; an untagged C-contiguous 3×5 array: TypeError too (`FastfiltersPackage.TwoDimensional`) | raising NotImplementedError, and passing the window as `window_ratio` | not executed | FastfiltersPackage.GaussianSmoothingAsWritten | FastfiltersPackage.GaussianSmoothing |
