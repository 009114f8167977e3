# Berry curvature dipole accumulation, modelled in Dafny

This project models the `Berry_Curvature_Dipole` class of pyatb
(`src/pyatb/berry/berry_curvature_dipole.py`). The class computes the Berry
curvature dipole tensor as a table of `E_num` energy bins by 9 tensor
components. It works in three stages:

- **Kernel (`get_bcd_pl`).** For every k-point and band, it puts the band
  into an energy bin, builds the band's curvature vector from the
  inter-band velocity products, skipping near-degenerate partners, and adds
  `Re(v[a,n,n]) * bc[b]` into row `n`, column `a*3+b` of a zero-initialised
  `[K, E_num, 9]` array.
- **Coarse scan (`__area_judge`).** It sums the kernel tables over a coarse
  grid. It flags every k-point whose table reaches `bar` or `-bar`, removes
  that point's table from the sum and records its coordinate.
- **Assembly (`calculate_berry_curvature_dipole`).** For every flagged point
  it samples a finer grid around that point and adds the fine sum, divided by
  `m1*m2*m3`, to `bcd_0`. The result is `bcd_0 * constant1 / (n1*n2*n3)`.

The project has four modules:

- `numerics.dfy` (`Numerics`): complex numbers as pairs of reals, Python's
  `int()` as truncation toward zero, 3-vectors, and `[rows, 9]` tables with
  numpy's element-wise operations and summation.
- `kernel.dfy` (`Kernel`): the per-k-point specification (`Bin`, `Term`,
  `Curvature`, `PointTensor`). It also holds the in-place `GetBcdPl`, which
  fills an `array3<real>` and is proved equal to that specification.
- `scan.dfy` (`Scan`): the flag test, the hot and cold selections with their
  sums, and the judge and fine-sum loops over batches and ranks.
- `dipole.dfy` (`Dipole`): the class `BerryCurvatureDipole`. Its
  `SetParameters` and `Calculate` update its fields. It also holds the
  construction checks and the refinement sum.

The k-point generator, the per-rank split of a batch and the band solver
are one input, a `Sampler`. Given the grid it is asked for (start, three
spanning vectors, grid size), the sampler returns the batches, each as one
sequence of samples per rank. Each sample carries its coordinate, its
eigenvalues and its velocity matrices. An MPI sum-reduce is a sum in rank
order, and the hot-point gather is a concatenation in rank order.

## Model

| member | source | states |
|---|---|---|
| Numerics.Trunc | src/pyatb/berry/berry_curvature_dipole.py:215 | `int()` rounds toward zero: for x >= 0 the result r satisfies r <= x < r+1; for x < 0 it satisfies r-1 < x <= r |
| Numerics.ReTimesTwoIOverIsRealPart | src/pyatb/berry/berry_curvature_dipole.py:225-230 | -2 Im(z)/C is the real part of z*2i/C |
| Numerics.Zero | src/pyatb/berry/berry_curvature_dipole.py:202 | np.zeros([rows, 9]): a table of the given shape with every entry 0 |
| Numerics.Add | src/pyatb/berry/berry_curvature_dipole.py:122 | element-wise +: same shape, each entry the sum of the two entries |
| Numerics.Sub | src/pyatb/berry/berry_curvature_dipole.py:288 | element-wise -=: same shape, each entry the difference of the two entries |
| Numerics.Scale | src/pyatb/berry/berry_curvature_dipole.py:126 | element-wise multiplication by a scalar: same shape, each entry times c |
| Numerics.Div | src/pyatb/berry/berry_curvature_dipole.py:122 | element-wise division by a non-zero scalar: same shape, each entry over d |
| Numerics.Sum | src/pyatb/berry/berry_curvature_dipole.py:281 | `.sum(axis=0)` over a stack of tables, left to right from zero: the result has the tables' shape (its laws are SumConcat, AddAssoc and AddZeroRight) |
| Numerics.SumConcat | src/pyatb/berry/berry_curvature_dipole.py:293-298 | the sum of a concatenation is the sum of the parts' sums, so reducing partial sums equals the single sum |
| Kernel.DeltaE | src/pyatb/berry/berry_curvature_dipole.py:198 | delta_E = (E_max-E_min)/E_num is non-zero for a valid window and positive for an increasing one |
| Kernel.WidthSpansWindow | src/pyatb/berry/berry_curvature_dipole.py:198 | E_num widths of delta_E span exactly E_max-E_min |
| Kernel.Bin | src/pyatb/berry/berry_curvature_dipole.py:215-216 | a band is binned only into an index in [0, E_num-1] |
| Kernel.BinAtGridEnergy | src/pyatb/berry/berry_curvature_dipole.py:198-216 | an energy E_min + k*delta_E with k < E_num lands in bin k |
| Kernel.BinDropsAtOrAboveMax | src/pyatb/berry/berry_curvature_dipole.py:215-216 | with E_min < E_max, an energy at or above E_max is skipped, so E_max itself falls outside the bins |
| Kernel.BinBelowMin | src/pyatb/berry/berry_curvature_dipole.py:215-216 | below E_min by less than one width the quotient is in (-1,0) and truncation puts the band into bin 0; one width or more below, the band is skipped |
| Kernel.BinInWindow | src/pyatb/berry/berry_curvature_dipole.py:215-216 | with E_min < E_max, every energy in [E_min, E_max) is kept, and its bin n is the one with E_min + n*delta_E <= E < E_min + (n+1)*delta_E |
| Kernel.Gap | src/pyatb/berry/berry_curvature_dipole.py:222 | E_in = abs(E_m - E_n) is never negative |
| Kernel.Term | src/pyatb/berry/berry_curvature_dipole.py:219-230 | a partner's contribution is three components; it is zero when the gap is <= 1e-4, and it is zero for the band itself |
| Kernel.DegeneratePartnerAddsNothing | src/pyatb/berry/berry_curvature_dipole.py:221-224 | a partner within 1e-4 of the band leaves the curvature vector unchanged |
| Kernel.CurvatureUpTo | src/pyatb/berry/berry_curvature_dipole.py:219-230 | bc_nband after the first m partners: a 3-vector starting from zero, one Term added per partner (AddPartner and DegeneratePartnerAddsNothing state its steps) |
| Kernel.Curvature | src/pyatb/berry/berry_curvature_dipole.py:219-230 | the curvature vector of a band, a 3-vector: bc_nband after all partners |
| Kernel.BandCurvature | src/pyatb/berry/berry_curvature_dipole.py:220-230 | the loop over partner bands computes the curvature vector of the specification |
| Kernel.AddPartner | src/pyatb/berry/berry_curvature_dipole.py:221-230 | one pass of the partner loop turns the curvature after m partners into the curvature after m+1 partners, whichever branch of the floor test is taken |
| Kernel.RowFromColumn | src/pyatb/berry/berry_curvature_dipole.py:232-240 | column a*3+b of a band's row is Re(v[a,n,n]) * bc[b], for every axis a and component b |
| Kernel.RowFrom | src/pyatb/berry/berry_curvature_dipole.py:232-240 | the nine values added for a band with curvature bc, one per column; RowFromColumn states what column a*3+b holds |
| Kernel.BandRow | src/pyatb/berry/berry_curvature_dipole.py:232-240 | the nine values a band adds, 9 entries: RowFrom at the band's own curvature |
| Kernel.AddRow | src/pyatb/berry/berry_curvature_dipole.py:232-240 | adding a row into bin n: the shape is kept, row n gains the row entry by entry, and every other row is unchanged |
| Kernel.AccumulateBand | src/pyatb/berry/berry_curvature_dipole.py:232-240 | adding a band changes only row n of k-point ik and adds the band's row there; every other cell is unchanged |
| Kernel.TensorStepIn | src/pyatb/berry/berry_curvature_dipole.py:212-240 | a band in bin n adds its row to row n and leaves all other rows unchanged |
| Kernel.TensorStepOut | src/pyatb/berry/berry_curvature_dipole.py:241-242 | a band outside the bins leaves the table unchanged |
| Kernel.TensorUpTo | src/pyatb/berry/berry_curvature_dipole.py:210-242 | the [E_num, 9] table of one k-point after its first nb bands: shaped [E_num, 9]; its steps are TensorStepIn and TensorStepOut |
| Kernel.PointTensor | src/pyatb/berry/berry_curvature_dipole.py:210-242 | bcd_pl[ik, :, :], the [E_num, 9] table of one k-point after all its bands; TensorEntryIsBinSum gives each entry independently |
| Kernel.TensorEntryIsBinSum | src/pyatb/berry/berry_curvature_dipole.py:202-242 | each entry of a k-point's table is the sum, over the bands binned into that row, of their column values, starting from zero |
| Kernel.NoCouplingZeroCurvature | src/pyatb/berry/berry_curvature_dipole.py:221-230 | if all off-diagonal velocity entries are zero, the curvature vector is zero |
| Kernel.NoCouplingZeroTensor | src/pyatb/berry/berry_curvature_dipole.py:202-242 | if all off-diagonal velocity entries are zero, the whole table stays zero |
| Kernel.FillPoint | src/pyatb/berry/berry_curvature_dipole.py:210-242 | the band loop of one k-point turns its zero block of bcd_pl into that k-point's specification table and leaves every other k-point's block unchanged |
| Kernel.GetBcdPl | src/pyatb/berry/berry_curvature_dipole.py:190-248 | the output has shape [K, E_num, 9] and entry [ik, e, j] equals the specification table of k-point ik |
| Scan.SeqMax | src/pyatb/berry/berry_curvature_dipole.py:286 | the maximum bounds every entry and is attained |
| Scan.SeqMin | src/pyatb/berry/berry_curvature_dipole.py:286 | the minimum bounds every entry and is attained |
| Scan.TensorMax | src/pyatb/berry/berry_curvature_dipole.py:286 | np.max over a table bounds every entry and is attained |
| Scan.TensorMin | src/pyatb/berry/berry_curvature_dipole.py:286 | np.min over a table bounds every entry and is attained |
| Scan.Hot | src/pyatb/berry/berry_curvature_dipole.py:283-291 | the flagged points in visiting order: at most as many as the input, all with [E_num, 9] tables (SelectionsSplit, SelectedBySelf and HotConcat state which points) |
| Scan.Cold | src/pyatb/berry/berry_curvature_dipole.py:283-291 | the unflagged points in visiting order: at most as many as the input, all with [E_num, 9] tables (SelectionsSplit, SelectedBySelf and ColdConcat state which points) |
| Scan.Coords | src/pyatb/berry/berry_curvature_dipole.py:291 | `k_direct_coor[i, :]` of each point, in order: one coordinate per point, the i-th of point i |
| Scan.Total | src/pyatb/berry/berry_curvature_dipole.py:281 | the sum of the points' tables, shaped [E_num, 9] |
| Scan.HotIffSomeEntry | src/pyatb/berry/berry_curvature_dipole.py:286 | the flag test IsHot (max >= bar or min <= -bar) holds exactly when one of the table's entries is >= bar or <= -bar |
| Scan.SelectionsSplit | src/pyatb/berry/berry_curvature_dipole.py:283-291 | every hot point is flagged, every cold point is not, and the two selections together are the input points, each as often as it occurs (as multisets) |
| Scan.SelectionsCover | src/pyatb/berry/berry_curvature_dipole.py:283-291 | the hot and cold selections together hold exactly the input points, as multisets |
| Scan.SelectedBySelf | src/pyatb/berry/berry_curvature_dipole.py:286-291 | an input point is in the hot selection when it is flagged and in the cold selection when it is not |
| Scan.HotConcat | src/pyatb/berry/berry_curvature_dipole.py:291-297 | the flagged points of a concatenation are those of the first part followed by those of the second, so order is kept |
| Scan.ColdConcat | src/pyatb/berry/berry_curvature_dipole.py:288-298 | the unflagged points of a concatenation are those of the parts, in order |
| Scan.TotalConcat | src/pyatb/berry/berry_curvature_dipole.py:293-298 | the table sum over a concatenation is the sum of the parts' sums |
| Scan.Partition | src/pyatb/berry/berry_curvature_dipole.py:281-288 | the baseline plus the flagged tables equals the sum over all points |
| Scan.BaselineExcludesHot | src/pyatb/berry/berry_curvature_dipole.py:281-288 | removing each flagged table once from the full sum leaves exactly the sum over the unflagged points, so nothing is counted twice |
| Scan.ScoreConcat | src/pyatb/berry/berry_curvature_dipole.py:274-279 | scoring the points of concatenated slices equals concatenating the scored slices |
| Scan.Score | src/pyatb/berry/berry_curvature_dipole.py:274-279 | one point per sample, in order: sample i's coordinate with its kernel table bcd_pl[i, :, :] |
| Scan.AllSum | src/pyatb/berry/berry_curvature_dipole.py:116-120 | the sum of the kernel tables of all the samples, shaped [E_num, 9] |
| Scan.ColdSum | src/pyatb/berry/berry_curvature_dipole.py:281-298 | the sum of the kernel tables of the unflagged samples, shaped [E_num, 9] |
| Scan.HotCoords | src/pyatb/berry/berry_curvature_dipole.py:286-297 | the coordinates of the flagged samples in order, no more of them than samples |
| Scan.AllSumConcat | src/pyatb/berry/berry_curvature_dipole.py:116-120 | the sum of all tables over concatenated slices is the sum of the slices' sums |
| Scan.ColdSumConcat | src/pyatb/berry/berry_curvature_dipole.py:293-298 | the baseline over concatenated slices is the sum of the slices' baselines |
| Scan.HotCoordsConcat | src/pyatb/berry/berry_curvature_dipole.py:292-297 | the flagged coordinates of concatenated slices are the slices' flagged coordinates gathered in order |
| Scan.KernelPoints | src/pyatb/berry/berry_curvature_dipole.py:275-279 | reading back bcd_pl[i, :, :] after the kernel gives each sample's coordinate with its specification table |
| Scan.Slice | src/pyatb/berry/berry_curvature_dipole.py:286-288 | bcd_pl[i, :, :] read back from the array: shaped [E_num, 9], entry [e][j] equals bcd_pl[i, e, j] |
| Scan.Gather | src/pyatb/berry/berry_curvature_dipole.py:292-297 | the samples of one batch, rank after rank, all well formed (GatherSnoc gives its step) |
| Scan.Flatten | src/pyatb/berry/berry_curvature_dipole.py:271 | the samples of all batches, batch after batch, all well formed (FlattenSnoc gives its step) |
| Scan.JudgePoints | src/pyatb/berry/berry_curvature_dipole.py:281-291 | the loop ends with the sum over the unflagged points and with the flagged coordinates in visiting order |
| Scan.JudgeLocal | src/pyatb/berry/berry_curvature_dipole.py:274-291 | one rank's baseline and flagged coordinates for its slice |
| Scan.JudgeBatch | src/pyatb/berry/berry_curvature_dipole.py:271-299 | reducing over the ranks gives the baseline and the flagged coordinates of the gathered batch |
| Scan.AreaJudge | src/pyatb/berry/berry_curvature_dipole.py:249-304 | the coarse scan returns the sum over all unflagged points of all batches and all flagged coordinates in batch, rank and visiting order |
| Scan.SumLocal | src/pyatb/berry/berry_curvature_dipole.py:115-116 | one rank's bcd_pl.sum(axis=0) is the sum of its samples' tables |
| Scan.SumBatch | src/pyatb/berry/berry_curvature_dipole.py:110-120 | reducing over the ranks gives the sum over the gathered batch |
| Scan.FineSum | src/pyatb/berry/berry_curvature_dipole.py:108-121 | a hot point's accumulator starts at zero and ends as the sum of the tables of every sample of every batch |
| Dipole.Volume | src/pyatb/berry/berry_curvature_dipole.py:87 | n1*n2*n3 is zero exactly when one of the sizes is zero |
| Dipole.FineRequest | src/pyatb/berry/berry_curvature_dipole.py:99-108 | the fine grid uses the vectors v_i/n_i and the adaptive grid, and starts half a diagonal before h, so the fine cell is centred on h |
| Dipole.CheckConstruction | src/pyatb/berry/berry_curvature_dipole.py:19-52 | construction is rejected for nspin == 2 (lines 19-20), and otherwise when the mode is not "Grid" (lines 51-52) when the mode is not "Grid"; it is accepted exactly when neither holds |
| Dipole.BerryCurvatureDipole.constructor | src/pyatb/berry/berry_curvature_dipole.py:22-29 | a new object has the fixed start 0 and unit spanning vectors; its parameters hold zero placeholders (0.0 bounds, step and threshold, bin count 0, grids (0, 0, 0), an empty bcd_0) until SetParameters stores them |
| Dipole.BerryCurvatureDipole.EnergyWindow | src/pyatb/berry/berry_curvature_dipole.py:191-193 | E_min, E_max and E_num are the stored start, end and bin count |
| Dipole.BerryCurvatureDipole.CoarseRequest | src/pyatb/berry/berry_curvature_dipole.py:88-94 | the coarse scan is asked for k_start with the three unit spanning vectors and the integrate grid |
| Dipole.OmegaNum | src/pyatb/berry/berry_curvature_dipole.py:73 | int((end-start)/domega)+1 is at least 1 exactly when the quotient is above -1; for a non-negative quotient, r-1 steps fit in the window but r do not |
| Dipole.OmegaNumCoversWindow | src/pyatb/berry/berry_curvature_dipole.py:73 | with domega > 0 and start <= end, start + (r-1)*domega <= end < start + r*domega |
| Dipole.BerryCurvatureDipole.SetParameters | src/pyatb/berry/berry_curvature_dipole.py:61-76 | the bounds and step are always stored; a zero step fails and leaves the other fields as they were; otherwise the bin count and the grids are stored |
| Dipole.BerryCurvatureDipole.Calculate | src/pyatb/berry/berry_curvature_dipole.py:85-131 | bcd_0 becomes the coarse baseline plus each hot point's fine sum divided by m1*m2*m3, added once per hot point in order; the result is bcd_0*constant1*(1/(n1*n2*n3)); a zero integrate grid, an invalid window and a zero adaptive grid with hot points give errors |
| Dipole.BerryCurvatureDipole.ScanAndRefine | src/pyatb/berry/berry_curvature_dipole.py:88-122 | with a usable grid and window, bcd_0 ends as the coarse baseline plus RefinedSum of the hot coordinates and the result is bcd_0*constant1/(n1*n2*n3); with hot points and a zero adaptive grid it fails with bcd_0 at the baseline |
| Dipole.BerryCurvatureDipole.Refine | src/pyatb/berry/berry_curvature_dipole.py:107-122 | the loop over hot points adds each one's fine sum divided by m1*m2*m3 to bcd_0, so bcd_0 gains exactly RefinedSum; with hot points and a zero adaptive grid it fails and bcd_0 is unchanged |
| Dipole.Create | src/pyatb/berry/berry_curvature_dipole.py:13-53 | construction fails with the first failing check (spin, mode, zero step) and otherwise yields a new object with the parameters stored |
| Dipole.RefinedStep | src/pyatb/berry/berry_curvature_dipole.py:122 | refining one more hot point adds exactly its contribution |
| Dipole.RefinedSumConcat | src/pyatb/berry/berry_curvature_dipole.py:107-122 | the refinement of a concatenated hot list is the sum of the parts' refinements, so every hot point contributes once |
| Dipole.Refinement | src/pyatb/berry/berry_curvature_dipole.py:108-122 | one hot point's contribution: the fine-grid sum divided by m1*m2*m3, shaped [E_num, 9] |
| Dipole.RefinedSum | src/pyatb/berry/berry_curvature_dipole.py:107-122 | the hot points' contributions added in order from zero, shaped [E_num, 9] (RefinedStep and RefinedSumConcat state how it grows) |

## Left out

- File and log output is not modelled. This covers the output directory (lines 31-38), the log writes (lines 42-50 and 77-84), `np.savetxt` (line 105), `print_data` (lines 126 and 132-135) and `print_plot_script` (lines 136-188). `Calculate` returns the tensor that would be written.
- `get_constant` (lines 54-60) is a parameter of `Calculate`, `constant1`. It depends on a foreign k-space conversion, a floating-point determinant and `np.pi`.
- The band solver `get_velocity_matrix` (line 205) is not part of this model. Each sample carries its eigenvalues and velocity matrices as inputs.
- `kpoint_generator.mp_generator`, `kpoints_in_different_process` and `__set_k_mp` (lines 305-314) are not part of this model. Together they are the `Sampler` parameter, and `FineRequest` and `CoarseRequest` compute what it is asked for.
- MPI is not modelled. `COMM.reduce` with `MPI.SUM` is a sum in rank order. `op_gather_numpy` is a concatenation in rank order. `COMM.bcast` is a no-op. Concurrency and blocking are out of scope.
- Floating point is replaced by exact `real` arithmetic, with no rounding, `inf` or `nan`. The constant 1e-4 is the real `0.0001`.
- `bcd_local_` and `bcd_total_` (lines 270, 282, 294 and 299) are not modelled. They only feed a commented-out dump. Because `bcd_local_` aliases `bcd_local` and `-=` works in place, they would hold the same values as `bcd_local` and `bcd_total`.
- `__set_k_direct` (lines 316-318) is unused and left out. So is `E_list` (line 194), which is computed and never read.
- Dipole.BerryCurvatureDipole.Calculate: an invalid energy window (`E_num <= 0` or `E_max == E_min`) is reported up front as `BadEnergyWindow`. In the source, a negative `E_num` fails at `np.zeros` (line 269). A zero `E_num` or an empty window only fails inside `get_bcd_pl` (lines 198 and 215) once a batch reaches it.
- Dipole.BerryCurvatureDipole.Calculate: for a zero adaptive grid, numpy divides by zero at line 122 and produces `inf`/`nan` with a warning. The model instead returns `ZeroAdaptiveGrid` at the first hot point, with `bcd_0` still holding the coarse baseline.
- Dipole.BerryCurvatureDipole.ScanAndRefine: the same divergence at line 122. With hot points and a zero adaptive grid it returns `Failure(ZeroAdaptiveGrid)` with `bcd_0` at the coarse baseline, where the source goes on with `inf`/`nan` entries.
- Dipole.BerryCurvatureDipole.Refine: the same divergence at line 122. With hot points and a zero adaptive grid it stops at the first hot point with `ok == false` and `bcd_0` unchanged, where the source adds `inf`/`nan` to `bcd_0` and continues.
- Dipole.Create: the constructor's `tb` object is reduced to its `nspin`, and the keyword arguments of `set_parameters` are explicit parameters, with `omega` given as its two entries.
