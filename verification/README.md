# Verified model of a private retrieval stack

A Dafny model of the parts of the system that must be exactly right for private retrieval and
inference to be both correct and private: the GELO masking protocol between a trusted executor
and an untrusted engine, its attention variants and integrity check, the Compass index over
oblivious storage, the chunker, the attested scheme identity, and the AloePri model rewrites.
`dafny verify dfyconfig.toml` checks everything.

Numbers are exact: 32-bit floats become `real`, random draws become arbitrary inputs, so every
statement below holds for all draws.

## What is modelled

**Masking.** `Walsh`, `Fwht` and `Hd3` hold the in-place Walsh-Hadamard mask: butterflies over a
flat array, radix-8 and radix-2 passes, diagonals. `Dct4` holds the tile-fused DCT-IV cascade and
`Cascade` the algebra the two share. `Haar` holds the Householder sampler. `Masks` chooses and
draws masks, `Stacking` and `Batches` stack, mask, unmask and strip rows.

**The protocol.** `Protocol` is a mask-free state machine of sessions and offloads, with the
plaintext executor as its specification. `Executor` is the executor with its session, scratch
pools and weights as mutable state. Its ghost `log` records every operand handed to the engine and
where it came from: the data rows, the draw behind each of its masks, the draws of its shield rows.
Three results span whole runs. The outputs are those of the plaintext executor. What the engine was
given is exactly the run's list of operands, each a mask times data, shield and padding rows:
`Dispatch` cannot be called on anything else. And no mask outlives its bracket: every operand is
under masks drawn by the operation that opened its bracket, one draw per sequence, or by the offload
itself when there are no brackets.

**Around it.** `Attention` and `OutAttnMult` take the engine as an arbitrary function, so their
contracts pin down what it is given and what is made of whatever it answers, as `Offload.Settle`
does for linear offloads; exactness follows for an engine that multiplies. `Integrity` is the probing check with its tolerances and a counting
bound on what it misses.

**Compass.** `Beam` is the bounded best-first search, `Hnsw` the graph builder: every insertion is
specified in full (descent, search, selection, linking, re-selection) and keeps the graph invariants.
`Codec`, `Index`, `Search` and `Hints` store the graph in blocks, search over them, and bound the error
of the four-bit hints.

**Text and models.** `Utf8` and `Chunker` give the exact termination condition and what the chunks
cover. `Keying` says exactly when an attested fragment determines its policy. `AloePri` follows the token
permutation through greedy decoding, `Keymat` the key matrices through the residual stream.

`Sums`, `LinAlg`, `Slices`, `Blocks`, `Counting` and `Permutations` are the mathematics underneath.

## Where code and documentation differ

The model follows the code.

- The chunker always emits the tail, whatever `min_chunk_size` is (`crates/gelo-chunker/src/lib.rs:93-97`).
- The beam search does not cap its entry points at `ef` (`crates/compass-index/src/hnsw_plain.rs:395-406`): the result holds `max(ef, entry points)` nodes.
- The documented ceiling `2·k_base − 1` on shield rows (`crates/gelo-protocol/src/shield.rs:55-56`) holds exactly when a power of two lies among the stacked heights it allows (`Masks.ShieldCeilingIff`); `Masks.ShieldCeilingMissed` is an input that misses it.
- The documented soundness of the integrity check (`crates/gelo-protocol/src/integrity.rs:12-14`) holds above the tolerance only. `Integrity.SilentTamper` is a wrong product that always passes, `Integrity.NeverCaught` and `Integrity.TamperCaught` say how small and how large a deviation decides, and `Integrity.NeverCaughtIff` is exact while no probe takes a product past 1. The miss rate of one probe is `1/(2L + 1) = 1/7`, below the documented `1/(2L)`.
- The batched multi-projection offloads drop surplus rows without an error, where the single one asserts (`crates/gelo-protocol/src/sim.rs:1358-1500`); `Protocol.BatchRowsIff` gives the exact condition.
- A batch cuts the engine's answers into blocks of whole rows (`crates/gelo-protocol/src/sim.rs:1240-1250`), which panics for a weight without columns, where the plaintext executor returns an empty product; `Protocol.BracketFits` names the brackets this touches.
- A column the Householder sampler skips (`crates/gelo-protocol/src/mask.rs:648-650`) keeps what it has below the diagonal, so the mask is then the Q factor of a neighbouring matrix; `Haar.ExactIff` says exactly when it is that of the drawn one.
- The second norm threshold of the Householder sampler (`crates/gelo-protocol/src/mask.rs:663-665`) never fires, see `Haar.PivotLarge`.
- A line break in a key-derivation info string can make two policies share a fragment (`Keying.LineBreakCollision`). `Keying.DeterminedIff` says exactly when: a fragment determines its policy if and only if no separator between two values occurs inside either of them.
- A rewritten norm reproduces the plain one only where `κ` fits the row exactly (`Keymat.ReadKept`); the estimated `κ` is an average.

## Model

| member | source | states |
|---|---|---|
| Walsh.WhtIsHadamard | crates/gelo-protocol/src/hd3.rs:394-460 | The halving form of the fast transform over `m` levels equals multiplication by the matrix with entry `(−1)^popcount(i & j)`, for every row width |
| Walsh.HadamardKernel | crates/gelo-protocol/src/hd3.rs:1153-1188 | That matrix is symmetric and its square is `2^m·I`, for every `m`: the fact that makes it usable as a mask |
| Fwht.ButterflyPair | crates/gelo-protocol/src/hd3.rs:829-837 | One butterfly: two disjoint rows become their sum and difference in place, every other entry of the buffer keeps its value |
| Fwht.ProcessStageChunk | crates/gelo-protocol/src/hd3.rs:465-478 | A radix-2 chunk becomes sums of its halves above differences of its halves; nothing outside the chunk changes |
| Fwht.ButterflyOctLane | crates/gelo-protocol/src/hd3.rs:758-794 | One lane of eight strided entries goes through three levels of sums and differences; every entry off the lane is kept |
| Fwht.ButterflyOct | crates/gelo-protocol/src/hd3.rs:587-629 | All lanes of eight rows are transformed, the lanes not in this group and everything outside are kept |
| Fwht.ProcessStageChunkRadix8 | crates/gelo-protocol/src/hd3.rs:488-535 | A radix-8 chunk becomes the nested three-level combination of its eight parts; nothing outside changes |
| Fwht.StagePass | crates/gelo-protocol/src/hd3.rs:428-457 | One pass cuts the buffer into chunks that partition it and transforms each on its own |
| Fwht.RadixEightIsThreePasses | crates/gelo-protocol/src/hd3.rs:415-439 | A radix-8 pass at distance `h` leaves exactly what three radix-2 passes at `h`, `2h`, `4h` leave, for every buffer |
| Fwht.FwhtLevels | crates/gelo-protocol/src/hd3.rs:414-459 | The loop that takes radix-8 steps while three levels remain and radix-2 steps after ends with the full transform over all levels |
| Fwht.FwhtRowsInplaceSlice | crates/gelo-protocol/src/hd3.rs:394-460 | For every power of two `n` and every width `d`, row `i` of the buffer ends as `Σ_j (−1)^popcount(i & j)` times old row `j` |
| Hd3.ApplyDiagInplaceSlice | crates/gelo-protocol/src/hd3.rs:946-979 | Rows with sign −1 are negated, the others kept: multiplication by the ±1 diagonal |
| Hd3.ApplyDiagScaledInplaceSlice | crates/gelo-protocol/src/hd3.rs:998-1029 | Row `i` is multiplied by `diag[i]·factor` in one pass |
| Hd3.SampleDiag | crates/gelo-protocol/src/hd3.rs:128-158 | `n` signs, sign `i` decided by bit `i mod 32` of random word `i / 32` |
| Hd3.SignsDrawn | crates/gelo-protocol/src/hd3.rs:133-150 | Every sign vector is drawn by some 32-bit words: the drawing is onto |
| Hd3.WordsDetermined | crates/gelo-protocol/src/hd3.rs:133-150 | The signs of a full word determine it: no bit is dropped or used twice |
| Hd3.ApplyInPlaceSlice | crates/gelo-protocol/src/hd3.rs:256-269 | The three transforms and diagonals in place compute the cascade `norm·D₃·H·D₂·H·D₁·H` on the buffer |
| Hd3.UnapplyInPlaceSlice | crates/gelo-protocol/src/hd3.rs:296-309 | The factors in the opposite order, in place |
| Hd3.WalshKernel | crates/gelo-protocol/src/hd3.rs:394-460 | The Walsh matrix of any power of two satisfies the kernel laws with gain `n` |
| Hd3.Hd3RoundTrip | crates/gelo-protocol/src/hd3.rs:1056-1094 | `unapply(apply(X)·W) = X·W` for all `X`, `W`, all ±1 diagonals and every power of two |
| Hd3.Hd3Orthogonal | crates/gelo-protocol/src/hd3.rs:1099-1116 | The mask matrix is exactly orthogonal and `unapply` multiplies by its transpose |
| Cascade.UnapplyApply | crates/gelo-protocol/src/hd3.rs:231-269 | For any symmetric kernel with `C·C = c·I` and `norm²·c³ = 1`, unapply inverts apply on every matrix |
| Cascade.ApplyMul | crates/gelo-protocol/src/hd3.rs:181-196 | Masking acts on rows only: it commutes with any product on the right |
| Cascade.ApplyFactors | crates/gelo-protocol/src/hd3.rs:181-196 | Masking is the product of six factors in this order: kernel, first diagonal, kernel, second diagonal, kernel, third diagonal, times the norm |
| Cascade.UnapplyFactors | crates/gelo-protocol/src/hd3.rs:231-246 | Unmasking is the six factors in the reverse order |
| Cascade.RoundTrip | crates/gelo-protocol/src/dct4.rs:1060-1098 | The offload identity for every kernel of the cascade family: unmasking `(A·X)·W` leaves `X·W` |
| Cascade.ApplyIsMatrix | crates/gelo-protocol/src/hd3.rs:181-196 | `apply` is multiplication by one matrix, the one it makes of the identity |
| Cascade.UnapplyIsTranspose | crates/gelo-protocol/src/hd3.rs:231-246 | `unapply` is multiplication by the transpose of the matrix `apply` stands for |
| Cascade.MaskMatrixOrthogonal | crates/gelo-protocol/src/dct4.rs:1103-1119 | `Aᵀ·A = I` for every cascade mask |
| Dct4.CopyTileIn | crates/gelo-protocol/src/dct4.rs:627-643 | The tile holds columns `start..start+w` of the buffer as rows, whatever it held before |
| Dct4.CopyTileOut | crates/gelo-protocol/src/dct4.rs:648-664 | The tile goes back to columns `start..start+w`; every other column is untouched |
| Dct4.SignTile | crates/gelo-protocol/src/dct4.rs:912-921 | Sign flips on tile entries are the ±1 diagonal on the columns the tile holds |
| Dct4.ScaleTile | crates/gelo-protocol/src/dct4.rs:926-939 | The scaled diagonal on the columns the tile holds |
| Dct4.CascadeApplyInTile | crates/gelo-protocol/src/dct4.rs:849-878 | All stages on one tile compute the cascade on the columns it holds |
| Dct4.CascadeUnapplyInTile | crates/gelo-protocol/src/dct4.rs:882-905 | All stages of the inverse on one tile |
| Dct4.TileWidth | crates/gelo-protocol/src/dct4.rs:516-521 | The tiles partition the columns: column `k` lies in tile `t` exactly when `k / 16 = t`, for widths that are no multiple of 16 too |
| Dct4.ProcessTile | crates/gelo-protocol/src/dct4.rs:519-552 | One tile changes its own columns to the whole-matrix result and no others, over any scratch contents |
| Dct4.TileLoop | crates/gelo-protocol/src/dct4.rs:499-619 | In any order of the tiles, the tile-fused loop equals the whole-matrix cascade, forward and inverse, for every `n ≥ 1` and `d` |
| Dct4.AllTilesDone | crates/gelo-protocol/src/dct4.rs:499-559 | Once every tile of a permutation has been processed the buffer is the target matrix |
| Dct4.ApplyInPlaceSlice | crates/gelo-protocol/src/dct4.rs:243-260 | `buf ← A·buf`, with the early return at side length 1 |
| Dct4.UnapplyInPlaceSlice | crates/gelo-protocol/src/dct4.rs:287-304 | `buf ← Aᵀ·buf`, with the early return at side length 1 |
| Dct4.Dct4RoundTrip | crates/gelo-protocol/src/dct4.rs:1060-1098 | `unapply(apply(X)·W) = X·W` at every side length, side length 1 included |
| Haar.Rank1UpdateRows | crates/gelo-protocol/src/mask.rs:705-741 | The two row-major passes, with rows of zero coefficient skipped, reflect the block `[k:, k:]` and leave the rest |
| Haar.BlockIsReflection | crates/gelo-protocol/src/mask.rs:705-741 | Updating the block alone is the full Householder reflection of `A` once the columns to its left are triangular |
| Haar.Rank1UpdateCols | crates/gelo-protocol/src/mask.rs:749-786 | The two passes reflect the columns of `Q` from `k` on from the right |
| Haar.ColumnsAreReflection | crates/gelo-protocol/src/mask.rs:749-786 | That update is `Q·H` for the full reflection `H` |
| Haar.ReflectorTwice | crates/gelo-protocol/src/mask.rs:667-677 | A Householder reflection of a unit vector is its own inverse |
| Haar.OrthogonalStep | crates/gelo-protocol/src/mask.rs:677-677 | A reflection step keeps `Q` orthogonal |
| Haar.ProductKept | crates/gelo-protocol/src/mask.rs:673-677 | Reflecting `A` from the left and `Q` from the right leaves `Q·A` as it was |
| Haar.HouseholderSums | crates/gelo-protocol/src/mask.rs:652-670 | With pivot `a_kk ± σ` the normalised vector has length 1 and twice its product with column `k` is its norm |
| Haar.StepTriangular | crates/gelo-protocol/src/mask.rs:652-673 | The step clears column `k` below the diagonal and keeps the columns before it cleared |
| Haar.PivotLarge | crates/gelo-protocol/src/mask.rs:648-665 | The second threshold never fires: past the first one the vector is at least as long as the column |
| Haar.Isometry | crates/gelo-protocol/src/mask.rs:642-650 | An orthogonal `Q` keeps the length of every column |
| Haar.SkipMoves | crates/gelo-protocol/src/mask.rs:642-650 | Skipping column `k` moves that column of the product by exactly its part below the diagonal, and no other column |
| Haar.QrSkip | crates/gelo-protocol/src/mask.rs:648-650 | A skipped column keeps the running invariant, and its column of `Q·A` ends at the distance from the input's that the turn lost |
| Haar.QrStep | crates/gelo-protocol/src/mask.rs:652-677 | A full step keeps the running invariant and loses nothing: `Q` orthogonal, `A` triangular so far, every column of `Q·A` where its own turn left it |
| Haar.QrRun | crates/gelo-protocol/src/mask.rs:636-678 | The invariant holds before every turn of every run: `Q` orthogonal, column `j` of `Q·A` at the distance from the input's that turn `j` lost, columns not yet reached equal |
| Haar.ReflectColumn | crates/gelo-protocol/src/mask.rs:652-677 | The loop body past the first threshold, in place on `A` and `Q` and with its second threshold, is the specified turn |
| Haar.EliminateColumn | crates/gelo-protocol/src/mask.rs:636-678 | One turn in place, skipped or reflected, is the specified turn on the two matrices |
| Haar.CorrectSigns | crates/gelo-protocol/src/mask.rs:684-691 | Columns of `Q` over a negative diagonal entry are negated, the others kept |
| Haar.SignCorrected | crates/gelo-protocol/src/mask.rs:684-691 | The sign correction keeps `Q` orthogonal and the product unchanged, and makes the diagonal of `R` non-negative |
| Haar.SampleHaarOrthogonal | crates/gelo-protocol/src/mask.rs:628-694 | For every Gaussian matrix `G` the result is the sampled factor of the run on `G`: exactly orthogonal, and with its triangular factor each column nearer to `G`'s than `10^-30`; the product is `G` itself whenever every column's remaining norm at its turn is at least `10^-30` |
| Haar.FactorsOf | crates/gelo-protocol/src/mask.rs:628-694 | Both factors of every run: `Q` orthogonal, `R` upper triangular with a non-negative diagonal, and the distance of every column of `Q·R` from the input's, column by column |
| Haar.LostTiny | crates/gelo-protocol/src/mask.rs:642-650 | Whatever a skipped column loses is below the skip threshold |
| Haar.WithinThreshold | crates/gelo-protocol/src/mask.rs:642-650 | In numbers: no column of `Q·R` is `10^-30` or more away from the column of `G` |
| Haar.ExactIffClear | crates/gelo-protocol/src/mask.rs:642-650 | In numbers: `Q·R` is `G` if and only if every column shorter than `10^-30` from the diagonal down at its turn was zero below the diagonal already |
| Haar.LargeColumnsExact | crates/gelo-protocol/src/mask.rs:642-650 | In numbers: if each column's remaining norm is at least `10^-30` at its turn, `Q·R` is `G` |
| Haar.ExactIff | crates/gelo-protocol/src/mask.rs:628-694 | `Q·R` is the input if and only if every skipped column was zero below its diagonal when its turn came |
| Haar.ZeroColumnsExact | crates/gelo-protocol/src/mask.rs:628-694 | In particular when every skipped column was exactly zero from the diagonal down |
| Haar.SkippedButExact | crates/gelo-protocol/src/mask.rs:642-650 | That is not necessary: with a tiny diagonal entry and zeros below it the column is skipped and nothing is lost |
| Masks.FamilyRoundTrip | crates/gelo-protocol/src/mask.rs:28-78 | Whichever family is dispatched to, unmasking `(A·X)·W` gives `X·W` |
| Masks.FamilyInverse | crates/gelo-protocol/src/mask.rs:28-78 | Whatever the family, unmasking a masked matrix gives it back |
| Masks.FamilyIs | crates/gelo-protocol/src/mask.rs:28-78 | Masking is a product with the dense matrix, or with the mask matrix of kernel and diagonals; only a cosine mask of side 1 does nothing |
| Masks.AutoPadBounded | crates/gelo-protocol/src/mask.rs:154-183 | Under `Auto` the operand grows by a factor of at most 8/5, and only for HD₃ |
| Masks.AutoIff | crates/gelo-protocol/src/mask.rs:154-183 | `Auto` takes HD₃ exactly when some even power of two holds the rows at no more than eight fifths of their number, else the cosine family; a named family is kept |
| Masks.PadsToLeast | crates/gelo-protocol/src/sim.rs:1574-1588 | HD₃ pads to the least even power of two, the other families not at all |
| Masks.SharedDecodeAligned | crates/gelo-protocol/src/shield.rs:60-62 | For `n, k ≥ 1` the stacked height is the next power of two, so `Auto` takes HD₃ with no padding, and `k < n + 2·k_base` |
| Masks.ShieldCeilingIff | crates/gelo-protocol/src/shield.rs:55-62 | For all `n` and `k_base`: the documented ceiling `k ≤ 2·k_base − 1` holds if and only if a power of two lies between `n + k_base` and `n + 2·k_base − 1` |
| Masks.ShieldCeilingMissed | crates/gelo-protocol/src/shield.rs:55-62 | An input that breaks the ceiling, and its condition: 12 sequences with base 8 get 20 shield rows |
| Masks.FreshHaar | crates/gelo-protocol/src/mask.rs:218-223 | The dense mask is the factor the sampler computes from the drawn Gaussian matrix |
| Masks.DenseSampled | crates/gelo-protocol/src/mask.rs:218-223 | A sampled dense mask is the Q factor of a matrix within the skip threshold of the drawn one, and of the drawn one itself if and only if no turn of the sampler lost anything |
| Masks.FreshHd3 | crates/gelo-protocol/src/hd3.rs:128-158 | Diagonals with the drawn signs and a norm that undoes the gain |
| Masks.KeysDrawn | crates/gelo-protocol/src/hd3.rs:151-153 | The three diagonals are drawn apart: any three sign vectors are the keys of some draws |
| Masks.FreshDct4 | crates/gelo-protocol/src/dct4.rs:120-154 | Diagonals with the drawn signs, the planner of the right length, a norm that undoes the gain |
| Masks.FreshMask | crates/gelo-protocol/src/sim.rs:899-906 | A fresh mask is valid, of the resolved kind and side, and the one its draws stand for |
| Stacking.MeanRowNorm | crates/gelo-protocol/src/sim.rs:1545-1555 | The average L2 norm of the rows, 0 for no rows |
| Stacking.SigmaSquared | crates/gelo-protocol/src/sim.rs:914-920 | The amplitude squared times the width is the square of the energy times the mean row norm |
| Stacking.FillBlock | crates/gelo-protocol/src/sim.rs:928-944 | Data rows, then `k` shield rows, then zero rows overwrite `s` rows of a buffer whatever it held; the rest of the buffer is kept |
| Stacking.StackedEntries | crates/gelo-protocol/src/sim.rs:928-944 | Every entry of the stack written out: data, then amplitude times draw, then zero |
| Stacking.ShieldNorm | crates/gelo-protocol/src/sim.rs:1517-1541 | A shield row is the amplitude times the norm of its draw long |
| Stacking.MaskRows | crates/gelo-protocol/src/mask.rs:42-78 | Masking or unmasking by any family, through the in-place routine or the dense product |
| Stacking.StackRecovered | crates/gelo-protocol/src/sim.rs:1854-1859 | Unmask the product of a masked stack and keep the first `n` rows: the plain product, whatever the shield rows |
| Protocol.MatmulMany | crates/gelo-protocol/src/sim.rs:77-90 | The engine answers all handles exactly when all are registered with this width, else the first failure |
| Protocol.LinearIs | crates/gelo-protocol/src/sim.rs:77-90 | A single projection answers the registered product, or the error that names the missing handle or the two sizes |
| Protocol.ManyInOrder | crates/gelo-protocol/src/sim.rs:77-90 | A list of projections answers what each would answer alone, in the order of the list, and fails as the first one that fails |
| Protocol.QkvIsThree | crates/gelo-protocol/src/sim.rs:1887-1891 | A query-key-value offload answers `[x, y, z]` exactly when the single offloads of the layer's Q, K and V weights answer `x`, `y` and `z`; otherwise the first failure in that order |
| Protocol.QkvAnswers | crates/gelo-protocol/src/sim.rs:1371-1375 | The same in every session state, batches included, on the rows the offload reads |
| Protocol.OpenAnswers | crates/gelo-protocol/src/sim.rs:1558-1862 | In an open bracket an offload of the bracket's row count is answered, never panics, and gives the plaintext result |
| Protocol.MismatchPanics | crates/gelo-protocol/src/sim.rs:875-907 | An offload that does not fit the session is a failed assertion: outside a bracket, with another row count under one mask, with too few rows between sequences; none of them changes the session |
| Protocol.BracketOpens | crates/gelo-protocol/src/sim.rs:1611-1746 | What each opener leaves open, and that no sequences and empty ones are errors that change nothing |
| Protocol.BracketShield | crates/gelo-protocol/src/sim.rs:1568-1572 | The small-input shield is used exactly by brackets whose masks cover no more rows than it allows; a shared decode gets shield rows up to a power of two |
| Protocol.DecodeShieldLeast | crates/gelo-protocol/src/sim.rs:1676-1746 | No fewer shield rows bring a shared decode to a power of two |
| Protocol.ForwardPanicsIff | crates/gelo-protocol/src/sim.rs:1558-1595 | Opening a forward pass fails in one case: no rows at all under a cosine mask, named or automatic |
| Protocol.BracketPlain | crates/gelo-protocol/src/sim.rs:1558-1602 | A whole bracket, then anything else: the bracket's outputs are the plaintext outputs and the session is closed after it, provided a bracket of separate sequences multiplies by weights with columns |
| Protocol.RunsPlain | crates/gelo-protocol/src/sim.rs:2178-2196 | Any number of well-formed brackets from a closed session give exactly what the plaintext executor gives |
| Protocol.BatchRowsIff | crates/gelo-protocol/src/sim.rs:1358-1500 | In a batch, a multi-projection offload equals the plaintext one if and only if its row count is `batch·n` and every weight has columns; surplus rows are dropped without an error |
| Batches.StackBatch | crates/gelo-protocol/src/sim.rs:1064-1145 | Every block of the batch buffer gets its own data, shield and zero rows, over stale contents |
| Batches.MaskBatch | crates/gelo-protocol/src/sim.rs:1150-1195 | Every block goes through its own mask in place |
| Batches.BatchBlockRecovered | crates/gelo-protocol/src/sim.rs:1228-1277 | Unmasking block `b` of the engine's product gives the plain product of sequence `b` |
| Batches.BlockHolds | crates/gelo-protocol/src/sim.rs:1064-1145 | Every entry of a block's stack: its own sequence's rows, its own shield rows at its own amplitude, zeros |
| Batches.ShieldLikeData | crates/gelo-protocol/src/sim.rs:1126-1130 | When the squared entries of a shield draw sum to the width, its row is as long as the energy times the mean data row |
| Batches.StripBlocks | crates/gelo-protocol/src/sim.rs:1228-1277 | Keeps the first `data_n` rows of every block, block after block |
| Batches.UnmaskPerSequence | crates/gelo-protocol/src/sim.rs:1228-1277 | Every block of the result is the unmasked, stripped block of the engine's answer |
| Batches.BatchRecovered | crates/gelo-protocol/src/sim.rs:1289-1350 | The whole batch unmasked is the plain product of the whole batch |
| Offload.VerifyOne | crates/gelo-protocol/src/sim.rs:1840-1853 | One output passes exactly when the kept weight exists, the shapes agree and every probe passes; otherwise the error says which |
| Offload.VerifyOutputs | crates/gelo-protocol/src/sim.rs:1914-1935 | For outputs of any engine: all are accepted or the first refused one decides the error; no probes accept anything |
| Offload.ProbesAre | crates/gelo-protocol/src/sim.rs:1914-1935 | Probe `t` of output `i` holds the coefficients drawn for that output and that probe |
| Offload.PassedMeans | crates/gelo-protocol/src/sim.rs:1914-1935 | What passing says of each output: its weight is at hand, the shapes agree, and it is within tolerance under all of its own probes |
| Offload.RefusalMeans | crates/gelo-protocol/src/sim.rs:1840-1853 | What a refusal says: the first output that fails, by its missing weight or by its probes |
| Offload.HonestOutputs | crates/gelo-protocol/src/sim.rs:1840-1853 | The outputs of an honest engine are accepted whatever the probes |
| Offload.StackShield | crates/gelo-protocol/src/shield.rs:70-103 | Data rows followed by shield rows; a plain copy when shielding is off |
| Offload.StackAndPad | crates/gelo-protocol/src/sim.rs:996-1008 | The allocating path: stack, then zero rows up to the mask's height |
| Offload.StackPooled | crates/gelo-protocol/src/sim.rs:909-991 | The scratch path: a pooled buffer of any contents ends as the masked stack; it leaves the pool for the structured families and stays, unmasked, for the dense one |
| Offload.OperandHolds | crates/gelo-protocol/src/sim.rs:909-991 | Unmasking an operand leaves data, shield and zero rows, entry by entry |
| Offload.UnmaskMany | crates/gelo-protocol/src/sim.rs:1943-1955 | Whatever the engine answered, every output comes back unmasked and stripped to the data rows |
| Offload.HonestUnmasked | crates/gelo-protocol/src/sim.rs:1943-1955 | Honest outputs, unmasked and stripped, are the plain products with their weights |
| Offload.HonestIsMatmul | crates/gelo-protocol/src/sim.rs:77-90 | An honest dispatch on an operand is exactly what the engine's products of it are |
| Offload.MaskSequences | crates/gelo-protocol/src/sim.rs:1064-1195 | The batch operand is, block by block, a mask times the stack of that sequence |
| Offload.Settle | crates/gelo-protocol/src/sim.rs:1836-1861 | For the answers of any engine: unmasked and stripped if the check accepts them all, else the error of the first one refused |
| Offload.SettleSequences | crates/gelo-protocol/src/sim.rs:1289-1350 | The same for a batch, block by block, and a panic when an accepted output has no columns |
| Offload.HonestSettled | crates/gelo-protocol/src/sim.rs:1836-1861 | An honest answer is accepted whatever the probes, and settles to the plain answer on the data |
| Offload.HonestSettledSequences | crates/gelo-protocol/src/sim.rs:1289-1350 | The same for a batch |
| Offload.TamperShare | crates/gelo-protocol/src/sim.rs:1840-1853 | An answer with an entry off by more than twice its row's tolerance is accepted for at most one draw in `7^probes` |
| Executor.TrustedExecutor.constructor | crates/gelo-protocol/src/sim.rs:367-420 | A new executor has a closed session and has sent nothing |
| Executor.TrustedExecutor.ProvisionWeight | crates/gelo-protocol/src/sim.rs:1752-1759 | Registers any weight with the engine and keeps a copy exactly when probing is on |
| Executor.TrustedExecutor.OpenSingle | crates/gelo-protocol/src/sim.rs:1558-1595 | One mask over all rows, made from the first draw of this call |
| Executor.TrustedExecutor.OpenSequences | crates/gelo-protocol/src/sim.rs:1611-1665 | One mask per sequence, mask `b` made from draw `b` of this call |
| Executor.TrustedExecutor.BeginForwardPass | crates/gelo-protocol/src/sim.rs:1558-1595 | Follows the mask-free machine for every draw; the session mask is made from the first draw of this call |
| Executor.TrustedExecutor.BeginPrefillPass | crates/gelo-protocol/src/sim.rs:1611-1665 | One mask per sequence, mask `b` from draw `b` of this call, or the error for an empty batch or sequence |
| Executor.TrustedExecutor.BeginDecodePass | crates/gelo-protocol/src/sim.rs:1676-1746 | One shared mask over aligned rows, or one mask per sequence of a single row, each from its own draw of this call |
| Executor.TrustedExecutor.EndForwardPass | crates/gelo-protocol/src/sim.rs:1597-1602 | Closes the session, forgets its draws and drops the scratch |
| Executor.TrustedExecutor.ResolveMask | crates/gelo-protocol/src/sim.rs:875-907 | The session mask when rows and height match, one made from a draw of this call without brackets, otherwise the panic |
| Executor.TrustedExecutor.BuildShieldedAndApply | crates/gelo-protocol/src/sim.rs:847-1027 | Succeeds exactly when the rows fit the bracket, and then the operand is that mask times data, shield and padding rows |
| Executor.TrustedExecutor.BuildPerSequenceMasked | crates/gelo-protocol/src/sim.rs:1064-1195 | The batch operand under the session's masks |
| Executor.TrustedExecutor.Dispatch | crates/gelo-protocol/src/sim.rs:1825-1830 | Can be called only on an operand made from its origin: those rows, masks from those draws, those shield draws; it records both |
| Executor.TrustedExecutor.OffloadSingle | crates/gelo-protocol/src/sim.rs:1805-1862 | The plain products of the data, or the panic; exactly one operand sent, for these rows, under a mask of the session's draw or, without brackets, of this call's, with shield rows drawn by this call |
| Executor.TrustedExecutor.OffloadSequences | crates/gelo-protocol/src/sim.rs:1289-1500 | The same for a batch, sequence `b` under the mask of the session's draw `b` |
| Executor.TrustedExecutor.OffloadLinear | crates/gelo-protocol/src/sim.rs:1805-1862 | Follows the mask-free machine, the row-count assertion of the batched form included, and sends exactly what `SentBy` says |
| Executor.TrustedExecutor.OffloadQkv | crates/gelo-protocol/src/sim.rs:1864-1958 | Q, K and V in this order from one masked operand: unless it panics, exactly the products of the rows read with the layer's three weights, or the first failure |
| Executor.TrustedExecutor.OffloadLinearMany | crates/gelo-protocol/src/sim.rs:1960-2038 | Any list of projections from one masked operand; nothing is sent for an empty list |
| Executor.TrustedExecutor.Run | crates/gelo-protocol/src/sim.rs:1557-2038 | Any run of operations, for every draw and every stale buffer: outputs are those of the mask-free machine, and the engine is given exactly the operands `Origins` lists, each masked from the draws listed |
| Executor.TrustedExecutor.RunBrackets | crates/gelo-protocol/src/sim.rs:2245-2275 | A sequence of brackets returns exactly what the plaintext executor returns, and every operand is under masks drawn for its own bracket or offload, with shield rows of its own |
| Executor.OriginsFresh | crates/gelo-protocol/src/sim.rs:875-907 | From a closed session, every operand of a run is under masks drawn by the operation that opened its bracket, or by the offload itself without brackets, one draw for every mask, and its shield rows are its own |
| Executor.SentIs | crates/gelo-protocol/src/sim.rs:847-1027 | An offload that returns hands over exactly one operand, the rows it reads under its own shield draws; one that fails an assertion none, except for a batch on a weight without columns |
| Executor.SeenHolds | crates/gelo-protocol/src/sim.rs:847-1027 | What the engine was given for one operand of a run, entry by entry: unmasked with the mask made from its recorded draws it is data, shield and zero rows |
| Executor.SeenSampled | crates/gelo-protocol/src/sim.rs:875-907 | Mask by mask, what each operand was masked with is made from the recorded draw of the same index |
| Executor.SessionKinds | crates/gelo-protocol/src/sim.rs:1573-1590 | The masks of an open session have the resolved kind and its height |
| Executor.SourceIsLast | crates/gelo-protocol/src/sim.rs:875-907 | The masks of an operand come from the last operation of the run so far that draws any |
| Executor.SameFailure | crates/gelo-protocol/src/sim.rs:77-90 | Whether and how the engine refuses a dispatch does not depend on the masked entries |
| Attention.ShiftInvariant | crates/gelo-protocol/src/attention.rs:564-582 | Subtracting any number from a row before exponentiating leaves its softmax unchanged |
| Attention.SoftmaxRow | crates/gelo-protocol/src/attention.rs:564-582 | Maximum, exponentials, sum, rescale: exactly `exp(s_j) / Σ exp(s)` |
| Attention.SoftmaxRowwise | crates/gelo-protocol/src/attention.rs:564-582 | The same for every row |
| Attention.SoftmaxBatched | crates/gelo-protocol/src/substrate.rs:411-431 | The same for every head |
| Attention.RowRecovered | crates/gelo-protocol/src/attention.rs:322-477 | One output entry of attention on permuted keys and values is the entry of the plain attention at the permuted query |
| Attention.HeadRecovered | crates/gelo-protocol/src/attention.rs:322-477 | For any two permutations, attention of permuted rows under the permuted mask is the permuted plain attention |
| Attention.IdleMask | crates/gelo-protocol/src/attention.rs:396-415 | A causal mask over one query that sees every key is no mask |
| Attention.NoiseCommutes | crates/gelo-protocol/src/attention.rs:508-556 | Noise added after permuting is noise added before, with its draws moved back |
| Attention.NoiseLands | crates/gelo-protocol/src/attention.rs:508-556 | The draw for permuted row `i`, times the deviation, is added to original row `perm[i]` |
| Attention.AddGaussian | crates/gelo-protocol/src/attention.rs:508-556 | `m + σ·z` entry by entry, the tensor unchanged when `σ ≤ 0` |
| Attention.MaskMatrix | crates/gelo-protocol/src/attention.rs:434-452 | Entry `(i, j)` is `−c` exactly when the mask is causal and the key's own position `permKv[j]` is greater than `offset + permQ[i]`, and 0 otherwise |
| Attention.LogitIs | crates/gelo-protocol/src/attention.rs:434-452 | A logit is the scaled product of query row and key row, less `c` exactly when the key stands after the query |
| Attention.LaterKeysDamped | crates/gelo-protocol/src/attention.rs:434-452 | Raising `c` by `x` multiplies the weight of exactly the keys after the query by `exp(−x)` |
| Attention.AttentionIsMean | crates/gelo-protocol/src/attention.rs:421-466 | Attention is the mean of the value rows under those weights: a key after the query counts `exp(−c)` times, every other in full |
| Attention.MaskedBranch | crates/gelo-protocol/src/attention.rs:421-466 | Two engine products around the trusted masked softmax, for any engine |
| Attention.FusedAttentionBatched | crates/gelo-protocol/src/substrate.rs:464-509 | For any engine with exact products, whatever its own fused call does, the default fused call computes softmax attention with the optional additive mask |
| Attention.AddedIs | crates/gelo-protocol/src/substrate.rs:464-509 | The additive mask of a head is added to that head's scaled products, and nothing without one |
| Attention.HonestAnswer | crates/gelo-protocol/src/attention.rs:396-466 | With an honest engine the fused path and the masked path give the same shuffled attention |
| Attention.PermutedAttentionCached | crates/gelo-protocol/src/attention.rs:322-477 | Shape errors exactly as checked; the fused call is used exactly when it is allowed and the mask is idle; for any engine the result is its answer to permuted, noised rows put back in order; for an honest one it is attention of the inputs |
| Attention.PermutedAttention | crates/gelo-protocol/src/attention.rs:169-287 | The same with one permutation for queries, keys and values, always masked on the trusted side |
| Attention.EngineSees | crates/gelo-protocol/src/attention.rs:322-477 | For any engine, in entries: it is given row `perm[i]` plus its noise as row `i`, scores are scaled and every later key lowered before softmax, and row `i` of its answer becomes row `permQ[i]` of the head |
| Attention.NoiselessIsPlain | crates/gelo-protocol/src/attention.rs:618-650 | Without noise the permutations leave no trace |
| OutAttnMult.SampleScalar | crates/gelo-protocol/src/out_attn_mult.rs:249-254 | A scalar of magnitude in `[0.5, 1.5)`, positive exactly for an even word |
| Permutations.PermuteRows | crates/gelo-protocol/src/out_attn_mult.rs:262-270 | Row `i` of the result is row `λ[i]` |
| OutAttnMult.PermuteCols | crates/gelo-protocol/src/out_attn_mult.rs:272-280 | Column `j` of the result is column `λ[j]` |
| OutAttnMult.InversePermutation | crates/gelo-protocol/src/out_attn_mult.rs:282-295 | The table of positions inverts the permutation on both sides |
| OutAttnMult.InversePermute | crates/gelo-protocol/src/out_attn_mult.rs:282-307 | Entry `(i, j)` goes back to `(λ_q[i], λ_k[j])` |
| OutAttnMult.HideOperands | crates/gelo-protocol/src/out_attn_mult.rs:68-89 | What leaves the trusted side: the stacked, masked, permuted operands |
| OutAttnMult.HiddenEntries | crates/gelo-protocol/src/out_attn_mult.rs:68-89 | Every entry that leaves: data plus mask, or mask times the secret scalar, in the secret order |
| OutAttnMult.EntryRecovered | crates/gelo-protocol/src/out_attn_mult.rs:112-120 | `T₁ − T₂/b − T₃/a + T₄/(ab)` is the entry of `Q·Kᵀ`, for all masks and non-zero scalars |
| OutAttnMult.HonestUnpermuted | crates/gelo-protocol/src/out_attn_mult.rs:112-113 | Undoing both orders on an honest answer gives the product of the stacked operands |
| OutAttnMult.HonestRecovery | crates/gelo-protocol/src/out_attn_mult.rs:325-346 | An honest answer is turned into exactly `Q·Kᵀ` |
| OutAttnMult.RecoveryExactIff | crates/gelo-protocol/src/out_attn_mult.rs:112-120 | For any answer at all the result is `Q·Kᵀ` if and only if the answer's error recombines to 0 at every entry |
| OutAttnMult.CheckProduct | crates/gelo-protocol/src/out_attn_mult.rs:99-109 | Passes exactly when there are no probes or all of them accept |
| OutAttnMult.OffloadQkt | crates/gelo-protocol/src/out_attn_mult.rs:51-122 | With any engine: hidden operands only are sent, the answer is refused exactly when a probe fails, otherwise recombined; the product answer gives `Q·Kᵀ` |
| OutAttnMult.OffloadQktBatched | crates/gelo-protocol/src/out_attn_mult.rs:134-239 | All heads in one dispatch: the batch is refused exactly when some probed head's answer is not accepted, and each head answered honestly gets its own `Q·Kᵀ` |
| OutAttnMult.HeadExact | crates/gelo-protocol/src/out_attn_mult.rs:387-418 | A head of a batch answered honestly is exact whatever the other heads were answered |
| Integrity.InfNorm | crates/gelo-protocol/src/integrity.rs:111-113 | The largest magnitude of an entry, 0 for an empty matrix |
| Integrity.FirstBadRow | crates/gelo-protocol/src/integrity.rs:95-106 | The first row a probe disagrees on |
| Integrity.ToleranceIs | crates/gelo-protocol/src/integrity.rs:95-106 | The tolerance in numbers: `2·10^-4` always passes and is the limit for products within `[-1, 1]`; above, the share `10^-4` of the larger product or the rounding allowance takes its place |
| Integrity.RoundoffIs | crates/gelo-protocol/src/integrity.rs:78-81 | The rounding allowance in numbers, from the two largest magnitudes and the inner and outer lengths |
| Integrity.RoundoffCovers | crates/gelo-protocol/src/integrity.rs:78-85 | The allowance covers every pair of entries of the two operands |
| Integrity.RoundoffAttained | crates/gelo-protocol/src/integrity.rs:78-85 | Unless it is 0, some pair of entries attains it |
| Integrity.VerifyOffload | crates/gelo-protocol/src/integrity.rs:45-109 | Accepts without probes, else reports a wrong shape, else accepts if and only if every probe passes on every row; a mismatch is the first failing row of the first failing probe |
| Integrity.HonestAccepted | crates/gelo-protocol/src/integrity.rs:45-109 | The true product passes every probe |
| Integrity.ExactIff | crates/gelo-protocol/src/integrity.rs:88-94 | In exact arithmetic `Z = A·B` if and only if every probe vector agrees on every row |
| Integrity.ExactCaught | crates/gelo-protocol/src/integrity.rs:12-14 | A wrong `Z` agrees in its wrong row with at most `7^(p−1)` of the `7^p` probe vectors |
| Integrity.ExactRounds | crates/gelo-protocol/src/integrity.rs:12-14 | In exact arithmetic `n` independent probes miss any `Z ≠ A·B` in at most a `7^-n` share of all draws |
| Integrity.TamperCaught | crates/gelo-protocol/src/integrity.rs:45-109 | With the code's tolerances: an entry off by more than twice the tolerance cap passes at most one probe vector in seven |
| Integrity.RoundsCaught | crates/gelo-protocol/src/integrity.rs:12-14 | `n` independent probes all miss such an entry in at most a `7^-n` share of all draws |
| Integrity.NeverCaught | crates/gelo-protocol/src/integrity.rs:75-98 | A deviation small in absolute row sums passes every probe vector there is |
| Integrity.NeverCaughtIff | crates/gelo-protocol/src/integrity.rs:75-98 | While no probe takes a row of either product past 1, every probe vector passes if and only if every row of the deviation is small in absolute sum |
| Integrity.SilentTamper | crates/gelo-protocol/src/integrity.rs:12-14 | A wrong product accepted with certainty: 1·1 reported as 1.00005 |
| Beam.Seed | crates/compass-index/src/hnsw_plain.rs:395-406 | Both heaps and the visited set start with all entry points that exist, however many |
| Beam.Offer | crates/compass-index/src/hnsw_plain.rs:423-435 | A new node enters both heaps, replaces the farthest result, or is dropped: the results stay the best of what was seen |
| Beam.BeamSearch | crates/compass-index/src/hnsw_plain.rs:379-445 | Terminates; the results are the best `ef` of what was visited, all visited nodes are reachable, and every neighbour of a result was visited |
| Beam.WideSearch | crates/compass-index/src/hnsw_plain.rs:379-445 | With room for every node, the results are exactly the nodes reachable from the entry points |
| Beam.LocallyBest | crates/compass-index/src/hnsw_plain.rs:408-437 | However narrow the beam, a left-out neighbour of a result is no closer than any result |
| Hnsw.SetNeighbours | crates/compass-index/src/hnsw_plain.rs:336-348 | Writes one list of one layer and changes no other |
| Hnsw.GreedyOneHop | crates/compass-index/src/hnsw_plain.rs:350-377 | Terminates at a local minimum no farther than the start, and moves only if that is strictly closer |
| Hnsw.Algorithm4Select | crates/compass-index/src/hnsw_plain.rs:450-488 | Sorted, distinct, diverse picks; a candidate is left out only if a nearer pick covers it or the list is full of nearer ones |
| Hnsw.SimpleSelect | crates/compass-index/src/hnsw_plain.rs:192-200 | The `m` nearest candidates in order |
| Hnsw.SearchLayer | crates/compass-index/src/hnsw_plain.rs:178-187 | The candidates are what the beam search of the layer returned, nearest first, all of that level |
| Hnsw.LinkOne | crates/compass-index/src/hnsw_plain.rs:209-247 | One pick's list is appended to, or re-selected by the heuristic if it overflows; no other list changes and none becomes empty |
| Hnsw.LinkLayer | crates/compass-index/src/hnsw_plain.rs:172-253 | One layer of an insertion in full: the new list is chosen by search and heuristic, its picks are linked back, everything else is kept, the layer invariant holds |
| Hnsw.Descend | crates/compass-index/src/hnsw_plain.rs:152-167 | The descent ends at a local minimum of the layer above the node's, no farther than the entry; at the top it stays at the entry |
| Hnsw.InsertFirst | crates/compass-index/src/hnsw_plain.rs:142-150 | The entry node alone, with empty lists on exactly its layers |
| Hnsw.InsertNode | crates/compass-index/src/hnsw_plain.rs:139-256 | One insertion: every layer from the node's down is linked in turn from the picks above, and all graph invariants are kept |
| Hnsw.InsertionOrder | crates/compass-index/src/hnsw_plain.rs:122-130 | All nodes, higher levels first, ties by id |
| Hnsw.TopLayer | crates/compass-index/src/hnsw_plain.rs:120-120 | The greatest level |
| Hnsw.Build | crates/compass-index/src/hnsw_plain.rs:105-268 | For all levels, bounds, heuristics and distances: after every insertion each layer has exactly the inserted nodes of its level, every list is in bounds, distinct, of its level and never names its owner, no layer-0 list is empty from the second node on, and every insertion is the one search and heuristic call for; in distances, see `Hnsw.BuiltByDistance` |
| Hnsw.BuiltByDistance | crates/compass-index/src/hnsw_plain.rs:139-256 | Every insertion of a build in distances from the node inserted: the descent ends no farther than the entry with no closer listed neighbour; on each layer the candidates are sorted, no visited node left out is nearer than any of them, every omission by the heuristic has its reason, and the lists linked back are the old ones extended or re-selected likewise; nodes come by level, then id |
| Hnsw.FoundByDistance | crates/compass-index/src/hnsw_plain.rs:178-187 | The candidates of a layer search are sorted by distance and no visited node left out of a full list is nearer |
| Hnsw.PickedByDistance | crates/compass-index/src/hnsw_plain.rs:192-207 | Either heuristic in distances: the nearest picks, or picks none of which is nearer to an earlier pick than to the node, with a reason for each omission |
| Hnsw.BuiltGraph | crates/compass-index/src/hnsw_plain.rs:555-571 | The finished graph over all nodes: list bounds, distinct neighbours, upper layers keyed exactly by level, no node without a layer-0 neighbour when there are two |
| Codec.WordRoundTrip | crates/compass-index/src/codec.rs:68-78 | Four little-endian bytes give the word back |
| Codec.SerialiseNode | crates/compass-index/src/codec.rs:39-80 | The three errors exactly when their checks fail, otherwise a block of the asked size that holds the node and is zero after it |
| Codec.ByteLayout | crates/compass-index/src/codec.rs:63-80 | Byte by byte: little-endian embedding words from 0, the count after them, the ids after the count, zeros behind |
| Codec.SizeInWords | crates/compass-index/src/codec.rs:34-38 | A block fits exactly when it has room for that many words |
| Codec.DeserialiseNode | crates/compass-index/src/codec.rs:82-115 | Too short a block is refused; any other is read as the node its words give, the count capped |
| Codec.DecodesBack | crates/compass-index/src/codec.rs:82-115 | A block that holds a node is read back as that node if and only if its neighbour count fits a word |
| Codec.BlockInjective | crates/compass-index/src/codec.rs:39-80 | Two nodes with the same block are the same node |
| Index.GraphFits | crates/compass-index/src/index.rs:141-155 | The builder's invariant makes truncation a no-op and the overflow error unreachable |
| Index.CacheUpperLayers | crates/compass-index/src/index.rs:169-188 | The cache has the keys, embeddings and lists of the graph's upper layers |
| Index.DirectionalHints | crates/compass-index/src/hnsw_plain.rs:288-309 | Hint `i` of node `id` is the hint of its `i`-th listed neighbour |
| Index.HintsAligned | crates/compass-index/src/hnsw_plain.rs:288-309 | On every built index hint `i` of node `id` is the hint from the node's embedding to that of neighbour `i` of its layer-0 list |
| Index.AdmitAll | crates/compass-index/src/index.rs:141-155 | Every node is stored as a block that holds it; fails exactly when blocks are too small |
| Index.FromPlaintextCorpus | crates/compass-index/src/index.rs:121-166 | Panics exactly for an empty corpus, an embedding of another dimension, or a corpus of 2^32 nodes or more (ids wrap and the hints index past the adjacency); else fails exactly when blocks are too small; else blocks, caches and hints describe the corpus and a graph built under the metric's own distances |
| Index.FailuresAre | crates/compass-index/src/index.rs:121-166 | Both failures in numbers: the corpora that panic and the block sizes that are refused |
| Index.StoredNode | crates/compass-index/src/index.rs:217-229 | Decoding the stored block gives the built node |
| Index.CompassIndex.ReadLayer0Node | crates/compass-index/src/index.rs:217-229 | A read returns exactly the built node and counts once |
| Index.FetchedBest | crates/compass-index/src/search.rs:145-167 | A neighbour that is not fetched scores no better than any that is |
| Index.FetchedInOrder | crates/compass-index/src/search.rs:153-167 | Fetching is stable: a neighbour that scores at least as well as a later one is fetched whenever that one is, and before it |
| Index.FetchedNearlyBest | crates/compass-index/src/search.rs:145-167 | By exact scores, a neighbour that is not fetched leads one that is by at most `2·‖q‖₁/15` |
| Search.ReadsTrue | crates/compass-index/src/search.rs:143-173 | Distances and neighbour lists taken from blocks are those of the corpus and the graph |
| Search.UnfetchedNoBetter | crates/compass-index/src/search.rs:148-174 | On a built index a neighbour that is not fetched has a hint, packed for itself, that scores no greater than that of any fetched one |
| Search.DescendLayer | crates/compass-index/src/search.rs:101-120 | Greedy moves end at a local minimum of the cached layer |
| Search.Descend | crates/compass-index/src/search.rs:86-120 | The entry of layer 0 is a local minimum of the last cached layer, or the entry node read once |
| Search.NeighboursToFetch | crates/compass-index/src/search.rs:143-167 | All neighbours, or the `ef_n` best by hint |
| Search.SearchLayer0 | crates/compass-index/src/search.rs:122-189 | Over stored blocks: the same search result as the plain best-first search of the graph; it sees the start and every neighbour fetched from the nodes it expands, and reads one block for each node expanded and one for each other node seen |
| Search.TakeNearest | crates/compass-index/src/search.rs:191-193 | The `k` first of the results by distance and id |
| Search.AnswerInDistances | crates/compass-index/src/search.rs:191-193 | The answer in distances between query and corpus: sorted by distance then id, `k` of the visited nodes or all of them, and no visited node left out is nearer than any answered |
| Search.MinimumIs | crates/compass-index/src/search.rs:101-120 | The descent ends where no neighbour listed on the layer above is closer to the query |
| Search.NearestSeen | crates/compass-index/src/search.rs:191-193 | The nearest of the results are the nearest of everything visited |
| Search.Unfiltered | crates/compass-index/src/search.rs:151-152 | With budget for every neighbour the fetched lists are the graph's |
| Search.SeesAll | crates/compass-index/src/search.rs:122-189 | With a beam for every node and no filter, everything reachable from the start is visited |
| Search.LayeredSearch | crates/compass-index/src/search.rs:81-194 | Distinct ids sorted by distance, the `k` nearest of the visited nodes; of all nodes reachable from the descent's end when beam and budget have room; and exactly how many blocks were read |
| Search.ReadBounds | crates/compass-index/src/search.rs:136-189 | Every result is expanded, so reads lie between the results plus the other nodes seen and twice the nodes seen; with room for all seen nodes every one is expanded |
| Search.FilteredReads | crates/compass-index/src/search.rs:148-174 | With the directional filter a layer-0 search reads at most `1 + ef_n` blocks per node expanded |
| Hints.QuantisationError | crates/compass-index/src/hints.rs:34-43 | A code is within 1/15 of the value it stands for |
| Hints.NearestLevel | crates/compass-index/src/hints.rs:34-38 | A code is a nearest of the sixteen levels |
| Hints.LevelsEven | crates/compass-index/src/hints.rs:41-43 | The sixteen levels go from −1 to 1 in steps of 2/15 |
| Hints.ScaleOf | crates/compass-index/src/hints.rs:50-54 | The largest magnitude, and never less than the smallest normal float |
| Hints.FloorIsNormal | crates/compass-index/src/hints.rs:50-54 | The floor of the scale is the smallest normal 32-bit float |
| Hints.PackDirection | crates/compass-index/src/hints.rs:49-67 | Nibble `i` is the code of component `i` over the scale, for even and odd lengths |
| Hints.ScorePacked | crates/compass-index/src/hints.rs:89-100 | The dot product of the query with the decoded codes |
| Hints.ScoreError | crates/compass-index/src/hints.rs:144-152 | The packed score is within `‖q‖₁/15` of `q·v/s`, for every direction `v` with scale `s` and every query `q` |
| Hints.RankKept | crates/compass-index/src/hints.rs:155-166 | Directions whose exact scores differ by more than twice that are ranked correctly |
| Hints.ZeroComponent | crates/compass-index/src/hints.rs:34-43 | The bound is attained: 0 comes back as 1/15 |
| Utf8.FloorCharBoundary | crates/gelo-chunker/src/lib.rs:135-144 | The greatest boundary at or before an index |
| Utf8.CeilCharBoundary | crates/gelo-chunker/src/lib.rs:146-155 | The least boundary at or after an index |
| Utf8.BoundariesAre | crates/gelo-chunker/src/lib.rs:135-155 | On the UTF-8 form of any characters the boundaries are exactly where one ends or the first starts |
| Utf8.FloorNear | crates/gelo-chunker/src/lib.rs:135-144 | In valid UTF-8 the floor moves back at most three bytes |
| Chunker.FindSplitPoint | crates/gelo-chunker/src/lib.rs:121-133 | The cut the separators decide on, in the last quarter of the window |
| Chunker.WindowCutFirst | crates/gelo-chunker/src/lib.rs:121-133 | A window ends right after the last copy, in its last quarter, of the first separator of the list that occurs there |
| Chunker.WindowUncut | crates/gelo-chunker/src/lib.rs:121-133 | A window without a separator or a boundary in its last quarter ends at the last boundary within the target |
| Chunker.CutIsBoundary | crates/gelo-chunker/src/lib.rs:127-131 | A cut at a separator is a character boundary inside the search window |
| Chunker.SplitBounds | crates/gelo-chunker/src/lib.rs:121-133 | Every cut is a boundary in the window and at least `min(t − t/4 + 1, t − 3)` from its start |
| Chunker.WindowBounds | crates/gelo-chunker/src/lib.rs:88-116 | A window is on boundaries, at most `t` long, never reaches the end of the text, and the next starts at most `overlap` before its end; it advances when the overlap is below the least cut |
| Chunker.ProgressFinishes | crates/gelo-chunker/src/lib.rs:88-116 | Such an overlap makes the loop end within the bytes left |
| Chunker.TerminatesIff | crates/gelo-chunker/src/lib.rs:57-74 | The chunker ends on every text and separator list if and only if the target is at least one token and the overlap at most three quarters of it |
| Chunker.NextWindow | crates/gelo-chunker/src/lib.rs:88-116 | One turn of the loop computes the specified step |
| Chunker.NextExact | crates/gelo-chunker/src/lib.rs:110-115 | The next window starts at the first boundary no more than the overlap before the end of this one |
| Chunker.SplitTextInternal | crates/gelo-chunker/src/lib.rs:76-119 | Wherever the loop ends at all: the chunks are the pieces of a run of windows that starts at 0 and ends in the tail |
| Chunker.Chunk | crates/gelo-chunker/src/lib.rs:57-74 | White space gives nothing, a short text itself, any other the pieces of its run |
| Chunker.BlankIff | crates/gelo-chunker/src/lib.rs:57-60 | Text gives no chunks exactly when each of its characters has the Unicode property White_Space |
| Chunker.RunOk | crates/gelo-chunker/src/lib.rs:88-116 | Every window of a run meets its bounds and starts where the one before said |
| Chunker.RunCovers | crates/gelo-chunker/src/lib.rs:88-116 | No gap: every byte lies in some window |
| Chunker.PiecesOk | crates/gelo-chunker/src/lib.rs:103-108 | Every chunk is valid UTF-8 and at most `t` bytes |
| Chunker.WindowKept | crates/gelo-chunker/src/lib.rs:93-108 | A window is kept, as the text between its ends, exactly when it has the minimum size; the tail always is |
| Chunker.ChunksCover | crates/gelo-chunker/src/lib.rs:103-108 | With a minimum no larger than the least cut, every byte of the text is in some chunk |
| Chunker.LastIsSuffix | crates/gelo-chunker/src/lib.rs:93-97 | The last chunk is the rest of the text, however short |
| Keying.SchemeIdentityFragment | crates/core/src/keying.rs:476-577 | Section by section appending builds the specified text |
| Keying.FragmentText | crates/core/src/keying.rs:476-577 | The whole fragment line by line: every label with the value that follows it, in document order |
| Keying.DecimalIs | crates/core/src/keying.rs:507-530 | Numbers are written to base ten without leading zeros |
| Keying.HexIs | crates/core/src/keying.rs:500-545 | Bit patterns are eight lower-case hexadecimal digits, seeds two a byte, most significant first |
| Keying.RenderInjective | crates/core/src/keying.rs:476-577 | Lines with fixed labels at the end of a text determine their values and the text before them |
| Keying.ParamsInjective | crates/core/src/keying.rs:732-788 | Whatever the two policies and their strings, equal fragments come from equal parameters, floats compared by bit pattern |
| Keying.TwoCuts | crates/core/src/keying.rs:476-510 | If a text can be cut at the separators in two ways, some separator of either cut has a second copy in a value beside it |
| Keying.OtherCut | crates/core/src/keying.rs:476-510 | A second copy of a separator in a value beside it is another place to cut the same text |
| Keying.DeterminedIff | crates/core/src/keying.rs:476-577 | For every policy and parameters: no other pair has the same fragment if and only if no separator between two policy values occurs inside either of them |
| Keying.FragmentInjective | crates/core/src/keying.rs:476-577 | The fragment of a policy without line breaks belongs to no other policy and parameters |
| Keying.LineBreakCollision | crates/core/src/keying.rs:476-500 | Text moved across a separator: two different policies, both confusable, with one fragment |
| AloePri.PermutableIds | python/aloepri-llm/obfuscate_qwen3_gguf.py:448-463 | In increasing order, the ids below the active size of token type 1 or 6, or all of them when specials are included |
| AloePri.BuildTau | python/aloepri-llm/obfuscate_qwen3_gguf.py:465-471 | τ is a bijection that fixes every id outside the permutable set and follows the shuffle inside it |
| AloePri.Argsort | python/aloepri-llm/obfuscate_qwen3_gguf.py:472-472 | Indices in the order of their values |
| AloePri.ArgsortInverts | python/aloepri-llm/aloepri_client.py:63-73 | Sorting the indices of a permutation by value inverts it |
| AloePri.ApplyPi | python/aloepri-llm/obfuscate_qwen3_gguf.py:476-480 | Row `i` of `token_embd.weight` and of `output.weight`, where present, becomes row `τ⁻¹(i)`; every other tensor is untouched |
| AloePri.PermutedRows | python/aloepri-llm/obfuscate_qwen3_gguf.py:476-480 | Row `τ(v)` of a permuted table is row `v` of the plain one |
| AloePri.GreedyIs | python/aloepri-llm/aloepri_client.py:114-209 | A token is greedy when none has a greater logit on the rows looked up for the context |
| AloePri.StepPermuted | python/aloepri-llm/obfuscate_qwen3_gguf.py:476-480 | A token is greedy on the plain tables if and only if its image is greedy on the permuted ones |
| AloePri.RunPermuted | python/aloepri-llm/aloepri_client.py:114-209 | Over any number of steps: a greedy run maps by τ to a greedy run on the permuted tables, and back |
| AloePri.RecoveredRun | python/aloepri-llm/aloepri_client.py:202-209 | What the client recovers from a greedy run of the permuted model is a greedy run of the plain one |
| AloePri.RunsAgree | python/aloepri-llm/aloepri_client.py:202-209 | Where the first `k` tokens of a greedy run were each the only choice, every greedy run that long agrees with it on them |
| AloePri.UniqueIff | python/aloepri-llm/aloepri_client.py:202-209 | No tie at any context a greedy run visits, if and only if every greedy run that is no longer is a prefix of it |
| AloePri.RecoveredPlain | python/aloepri-llm/aloepri_client.py:202-209 | With no tie at the contexts the plain run visits, the answer recovered from a greedy server is the plain run, as far as both go; of equal length, the two are equal |
| AloePri.Collect | python/aloepri-llm/aloepri_client.py:183-208 | The tokens kept from a stream of events, up to a malformed one or a stop |
| AloePri.CollectedGrows | python/aloepri-llm/aloepri_client.py:183-208 | While the stream is open every event adds its tokens behind those before |
| AloePri.CollectedEnds | python/aloepri-llm/aloepri_client.py:183-208 | The event that stops still adds its own tokens, a malformed one does not, and nothing after either counts |
| AloePri.Complete | python/aloepri-llm/aloepri_client.py:114-209 | The ids sent are τ of the prompt, τ of the answer is what the server streamed, and the answer is a greedy run of the plain model exactly when that was one of the permuted model |
| Keymat.KeysCancel | python/aloepri-llm/obfuscate_qwen3_gguf.py:708-710 | `x·P` read through `W·Qᵀ` is `x` read through `W` |
| Keymat.ReadRatio | python/aloepri-llm/obfuscate_qwen3_gguf.py:222-238 | A rewritten, fused tensor reads the plain number times `κ` over the ratio of row scales |
| Keymat.ReadKept | python/aloepri-llm/obfuscate_qwen3_gguf.py:222-238 | Reads agree when `κ` fits the rows and, wherever the plain read is not 0, only then |
| Keymat.WriteKept | python/aloepri-llm/obfuscate_qwen3_gguf.py:713-714 | `y·(Pᵀ·W)ᵀ = (y·Wᵀ)·P` |
| Keymat.RewritesAre | python/aloepri-llm/obfuscate_qwen3_gguf.py:700-720 | The stored tensors entry by entry: reads folded with the norm weight and `Q`, writes with `P`, a flat norm weight |
| Keymat.EmbeddedKept | python/aloepri-llm/obfuscate_qwen3_gguf.py:711-712 | Looking ids up in the rewritten table is looking them up and multiplying by `P` |
| Keymat.StepKept | python/aloepri-llm/obfuscate_qwen3_gguf.py:700-720 | Through one block the rewritten residual stays the plain one times `P` |
| Keymat.StepIs | python/aloepri-llm/obfuscate_qwen3_gguf.py:700-720 | A block adds what it writes to the residual stream |
| Keymat.ReadIs | python/aloepri-llm/obfuscate_qwen3_gguf.py:222-238 | A projection reads the row scaled by its norm and weighted |
| Keymat.ResidualKept | python/aloepri-llm/obfuscate_qwen3_gguf.py:700-720 | `x_obf = x·P` over any number of blocks |
| Keymat.LogitsKept | python/aloepri-llm/obfuscate_qwen3_gguf.py:642-720 | The rewritten model gives the plain model's logits at every position whenever `κ` fits the residuals of the plain run |

## Left out

- Rounding: every float is a `real`; bf16 storage, overflow and NaN are not modelled, and heaps order finite distances only.
- AVX kernels, thread pools and BLAS calls: the scalar loops and exact products are modelled, and blocks or chunks that may run in parallel are processed one after another.
- Random generators: draws are inputs; nothing is said of their distribution, of the uniformity of the Haar sample or of seeds.
- `sqrt`, `x^1.5`, `exp` and the DCT-IV transform are inputs known by their laws (`√x² = x`, `(x^1.5)² = x³`, `exp` positive and multiplicative, the transform symmetric with `C·C = (n/2)·I`).
- Sub-slices of a buffer handed to a mask are copied out and back, scratch pools are maps of matrices moved as values, and heaps are sets with a minimum and maximum.
- Executor.TrustedExecutor.OffloadSingle: the engine inside the executor multiplies exactly; answers of any engine are treated in `Offload.Settle`, `Offload.SettleSequences`, `Offload.TamperShare`, `OutAttnMult` and `Attention`.
- Executor.TrustedExecutor.Run: a failed assertion is an outcome that ends the run; the state after it is not described.
- Executor.TrustedExecutor.ProvisionWeight: the bf16 and shared forms are not modelled.
- Snapshots, embedding tables, the executor's own attention entry points and the setters that change a configuration mid-life are not modelled; a configuration is fixed when the executor is made.
- Hnsw.Build: levels are an input (the logarithm that samples them is not modelled) and distances are an arbitrary function; equal distances may be ordered either way.
- Index.FromPlaintextCorpus: a panic is an outcome without a state; the oblivious store is a map in which a block read is the block admitted, and its access pattern and evictions are not modelled.
- Search.LayeredSearch: cosine distance, hints and hint scores are arbitrary functions there; the numeric bound on hints is in `Hints`.
- Hints.PackDirection: OR-ing a nibble into a zero half is written as a sum.
- Keying.SchemeIdentityFragment: the text is a sequence of characters; digests and key derivation are not modelled.
- AloePri.Collect: the stream is a list of parsed events; HTTP and JSON are not modelled.
- Keymat.LogitsKept: needs `κ` to fit the plain run's residuals exactly, because the norm of `x·P` is not a function of the norm of `x` for general `P`; models are records of blocks, not dictionaries keyed by tensor name, and noise, head-internal transforms and the sampling of the key matrices are not modelled.
- Attestation, transport, servers, storage formats, command-line tools and the GPU engine.
