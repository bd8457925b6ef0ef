# A verified model of parts of MPQC's SCF machinery

This Dafny project models, on values and small classes, the core of several
pieces of the Massively Parallel Quantum Chemistry program (MPQC):

- **The Fock build** (`chemistry/qc/scf/fockbuild.cc`):
  - the blocked arena of a `FockBuildMatrix` and the element operation
    that copies a symmetric matrix into it and sums it back;
  - the `GenericFockContribution` container of J, K and density
    matrices, together with its copy, merge, reduction, update and
    density-screening table;
  - the work schedules of the two thread kinds (`F11_P11::run`,
    `F12_P33::run_J` and `run_K`), with their round-robin ownership over
    processes and threads;
  - the `FockBuild` driver: the choice of thread kind, the thread
    creation and the build sequence.
- **Occupations**: the closed-shell and two-configuration SCF occupation
  bookkeeping (`clscf.cc`, `tcscf.cc`), including the aufbau filling of
  doubly occupied orbitals per irreducible representation.
- **Internal coordinates** (`chemistry/molecule/coor.cc`):
  - the `SetIntCoor` and `SumIntCoor` containers;
  - the bond finder and the generator helpers that add bonds, find
    hydrogen terminals and add out-of-plane coordinates.
- **Small utilities**:
  - basis-set library file lookup (`files.cc`);
  - the assigned KeyVal (`keyvalass.cc`);
  - `fill_container` (`container.h`).
- **SCF input reading** (`chemistry/qc/dmtscf/scf_kinp.cc`): the defaults
  and the open-shell type logic of the input reader, and the order in
  which `scf_struct` is put to and read from a state file. The order is
  proved as a round trip.
- **The CADF screening and placement helpers** (`cadfclhf.h`):
  - `ScreeningStatistics::next_iteration`;
  - the move constructor of an iteration record;
  - `is_master`;
  - the non-threaded `ints_to_eigen` placements of shell-blocked integral
    buffers into dense matrices.

Integrals, message passing, threads, I/O and the linear-algebra library
are not modelled. Where they feed the modelled code, they become
parameters: oracles for integral bounds, integral buffers, basis
equivalence and the reduction over other processes.

## Model

| member | source | states |
|---|---|---|
| ShellLayout.DecompositionUnique | mpqc/src/lib/chemistry/qc/scf/fockbuild.cc:100-101 | an element index splits into exactly one (block, offset-in-block) pair of a shell blocking |
| ShellLayout.ElemToBlockOf | mpqc/src/lib/chemistry/qc/scf/fockbuild.cc:100-101 | elem_to_block of the element at offset a of block I returns (I, a) |
| ShellLayout.ElemToBlockMonotone | mpqc/src/lib/chemistry/qc/scf/fockbuild.cc:100-101 | a later element never falls in an earlier block |
| ShellLayout.PrefixMonotone | mpqc/src/lib/chemistry/qc/scf/fockbuild.cc:270-276 | block starts never decrease along the shells |
| ShellLayout.ElemToBlock | mpqc/src/lib/chemistry/qc/scf/fockbuild.cc:100-101 | elem_to_block: the block holding element e and e's offset in it, which add back to e |
| ShellLayout.TriClosedForm | mpqc/src/lib/chemistry/qc/scf/fockbuild.cc:541-542 | the number of lower-triangle block pairs of n blocks is n(n+1)/2 |
| ShellLayout.TriPairUnique | mpqc/src/lib/chemistry/qc/scf/fockbuild.cc:103-105 | the symmetric block offset (I(I+1))/2 + J is injective on pairs J <= I |
| ShellLayout.RowMajorUnique | mpqc/src/lib/chemistry/qc/scf/fockbuild.cc:106-108 | the rectangular block offset nblock*I + J is injective |
| ShellLayout.PosInjective | mpqc/src/lib/chemistry/qc/scf/fockbuild.cc:110-113 | distinct (block, row, column) slots of the symmetric arena are distinct arena positions |
| ShellLayout.SlotOfPos | mpqc/src/lib/chemistry/qc/scf/fockbuild.cc:110-113 | every arena position decodes back to the slot it was computed from |
| ShellLayout.BlockFits | mpqc/src/lib/chemistry/qc/scf/fockbuild.cc:270-276 | every lower-triangle block lies inside the ndata values of the arena |
| ShellLayout.BlockOrder | mpqc/src/lib/chemistry/qc/scf/fockbuild.cc:270-276 | blocks are laid out in row order without overlap |
| FockElemOp.PosOf | mpqc/src/lib/chemistry/qc/scf/fockbuild.cc:100-113 | the arena position of element (i, j), j <= i, is below ndata and decodes back to (i, j) |
| FockElemOp.SlotInRange | mpqc/src/lib/chemistry/qc/scf/fockbuild.cc:100-113 | every slot of the arena names an element inside the matrix |
| FockElemOp.PackedHoldsElements | mpqc/src/lib/chemistry/qc/scf/fockbuild.cc:118-124 | after copy-in the slot of element (i, j) holds it, and in a diagonal block the transposed slot holds it as well |
| FockElemOp.PackedDiagonalSymmetric | mpqc/src/lib/chemistry/qc/scf/fockbuild.cc:119-124 | diagonal blocks of a copied-in arena hold the full symmetric square |
| FockElemOp.WrittenSlots | mpqc/src/lib/chemistry/qc/scf/fockbuild.cc:114-124 | copy-in of element (i, j) writes only its own slot and, in a diagonal block, the transposed one |
| FockElemOp.CopyInEnd | mpqc/src/lib/chemistry/qc/scf/fockbuild.cc:98-125 | the copy-in element loop over the lower triangle leaves exactly the packed arena |
| FockElemOp.CopyOutEnd | mpqc/src/lib/chemistry/qc/scf/fockbuild.cc:114-116 | the copy-out element loop adds each arena value to its matrix element |
| FockElemOp.CopyInCopyOutDoubles | mpqc/src/lib/chemistry/qc/scf/fockbuild.cc:114-124 | copying a matrix in and summing it back out gives twice every element |
| FockElemOp.FixDiagSymmetrizes | mpqc/src/lib/chemistry/qc/scf/fockbuild.cc:208-225 | fix_diagonal_blocks sets both mirror entries of a diagonal block to their mean and keeps the diagonal |
| FockElemOp.FixDiagOffDiagonal | mpqc/src/lib/chemistry/qc/scf/fockbuild.cc:208-225 | blocks off the diagonal are left alone |
| FockElemOp.FixDiagIdempotent | mpqc/src/lib/chemistry/qc/scf/fockbuild.cc:208-225 | fixing the diagonal blocks twice is the same as fixing them once |
| FockElemOp.FixEnd | mpqc/src/lib/chemistry/qc/scf/fockbuild.cc:212-224 | the triple loop of fix_diagonal_blocks computes the whole-arena symmetrisation |
| FockMatrix.RectMatrix.constructor | mpqc/src/lib/chemistry/qc/scf/fockbuild.cc:295-310 | a rectangular matrix records its row and column blockings |
| FockMatrix.FockBuildMatrix.constructor | mpqc/src/lib/chemistry/qc/scf/fockbuild.cc:143-150 | a new matrix owns no data and has no blocks, no dimensions and no bound matrix |
| FockMatrix.FockBuildMatrix.MakeReference | mpqc/src/lib/chemistry/qc/scf/fockbuild.cc:157-167 | the matrix shares the other's arena, blocks, matrices and dimensions without owning them; the bases stay |
| FockMatrix.FockBuildMatrix.ShapeOf | mpqc/src/lib/chemistry/qc/scf/fockbuild.cc:333-347 | the bookkeeping a matrix exposes: symmetric exactly when bound to a symmetric matrix, with its ndata, block table and basis |
| FockMatrix.FockBuildMatrix.Assign | mpqc/src/lib/chemistry/qc/scf/fockbuild.cc:408 | the implicit member-wise copy: every field, the owns flag included, equals the source's |
| FockMatrix.FockBuildMatrix.Clear | mpqc/src/lib/chemistry/qc/scf/fockbuild.cc:169-182 | clear drops data, blocks, matrices, bases and sizes, and leaves the owns flag |
| FockMatrix.FockBuildMatrix.CopyData | mpqc/src/lib/chemistry/qc/scf/fockbuild.cc:184-199 | a matrix that owns its data is unchanged; otherwise it gets a fresh arena of ndata uninitialised values, with the same block layout, and owns it |
| FockMatrix.FockBuildMatrix.ZeroData | mpqc/src/lib/chemistry/qc/scf/fockbuild.cc:201-205 | the first ndata arena values become 0 and nothing else changes |
| FockMatrix.FockBuildMatrix.FixDiagonalBlocks | mpqc/src/lib/chemistry/qc/scf/fockbuild.cc:207-225 | a non-symmetric matrix is untouched; a symmetric one gets its diagonal blocks symmetrised |
| FockMatrix.FockBuildMatrix.ScmatToDataSym | mpqc/src/lib/chemistry/qc/scf/fockbuild.cc:227-292 | throws invalid_argument exactly when the basis dimension differs from the matrix's; otherwise lays out the symmetric arena and either copies the matrix in or fills it with the character '0' |
| FockMatrix.FockBuildMatrix.AllocateBlocks | mpqc/src/lib/chemistry/qc/scf/fockbuild.cc:256-276 | allocates ndata values and points each lower-triangle block at its running offset |
| FockMatrix.FockBuildMatrix.FillCharZero | mpqc/src/lib/chemistry/qc/scf/fockbuild.cc:289-291 | every arena double becomes the byte pattern 0x30 repeated |
| FockMatrix.FockBuildMatrix.CopyIn | mpqc/src/lib/chemistry/qc/scf/fockbuild.cc:278-288 | the arena becomes the packed copy of the bound symmetric matrix |
| FockMatrix.FockBuildMatrix.DataToSymmat | mpqc/src/lib/chemistry/qc/scf/fockbuild.cc:318-330 | every lower-triangle element of the bound matrix gains its arena value; the arena is unchanged |
| FockMatrix.FockBuildMatrix.DataToRectmat | mpqc/src/lib/chemistry/qc/scf/fockbuild.cc:312-316 | always throws runtime_error "data_to_rectmat: not yet impl" |
| FockMatrix.FockBuildMatrix.ScmatToDataRect | mpqc/src/lib/chemistry/qc/scf/fockbuild.cc:294-310 | throws invalid_argument on a dimension mismatch and leaves the matrix alone; otherwise records the matrix and bases and throws runtime_error |
| FockMatrix.FockBuildMatrix.DataToScmat | mpqc/src/lib/chemistry/qc/scf/fockbuild.cc:332-347 | throws runtime_error when both or neither matrix is bound; with only a symmetric one, sums the arena into it |
| FockMatrix.FockBuildMatrix.Accum | mpqc/src/lib/chemistry/qc/scf/fockbuild.cc:349-358 | throws invalid_argument exactly when the ndata differ; otherwise adds the other arena element by element |
| FockMatrix.FockBuildMatrix.AccumRemote | mpqc/src/lib/chemistry/qc/scf/fockbuild.cc:360-364 | every arena value becomes itself plus the other processes' values |
| FockMatrix.BlockTable | mpqc/src/lib/chemistry/qc/scf/fockbuild.cc:270-276 | the block table gives block (I, J) its running data offset |
| FockMatrix.DataCount | mpqc/src/lib/chemistry/qc/scf/fockbuild.cc:256-261 | ndata is the sum of size(I) * size(J) over J <= I |
| FockContribution.MaxAbs | mpqc/src/lib/chemistry/qc/scf/fockbuild.cc:570-578 | the largest absolute value of a block, attained unless the block is 0 |
| FockContribution.Clamp | mpqc/src/lib/chemistry/qc/scf/fockbuild.cc:583-586 | the exponent is clamped to the range of signed char |
| FockContribution.BlockExponent | mpqc/src/lib/chemistry/qc/scf/fockbuild.cc:580-586 | the block's screening exponent lies in the range of signed char |
| FockContribution.BlockExponentMonotone | mpqc/src/lib/chemistry/qc/scf/fockbuild.cc:570-586 | a block with smaller values never gets a larger exponent, and blocks under the 2^-126 floor get the same one |
| FockContribution.PmaxAfterIsMax | mpqc/src/lib/chemistry/qc/scf/fockbuild.cc:546-548 | after the first q density matrices each pmax entry is the largest of their block exponents, or SCHAR_MIN |
| FockContribution.NewMatrices | mpqc/src/lib/chemistry/qc/scf/fockbuild.cc:389-392 | nfmat or npmat fresh, distinct, unset matrices |
| FockContribution.GenericFockContribution.constructor | mpqc/src/lib/chemistry/qc/scf/fockbuild.cc:382-398 | nfmat J, K and npmat density matrices, all fresh and unset, with the bases, the equivalence flag and a zero integral count |
| FockContribution.GenericFockContribution.SetFmatSym | mpqc/src/lib/chemistry/qc/scf/fockbuild.cc:412-422 | throws ProgrammingError when the bases are not equivalent; otherwise lays out J from the matrix, filled with '0' bytes, makes K a member-wise copy and marks K as J |
| FockContribution.GenericFockContribution.SetFmatRect | mpqc/src/lib/chemistry/qc/scf/fockbuild.cc:400-410 | throws ProgrammingError when the bases are equivalent, otherwise whatever the rectangular layout throws |
| FockContribution.GenericFockContribution.SetJmatSym | mpqc/src/lib/chemistry/qc/scf/fockbuild.cc:435-444 | as SetFmatSym for J alone; K is marked as separate |
| FockContribution.GenericFockContribution.SetJmatRect | mpqc/src/lib/chemistry/qc/scf/fockbuild.cc:424-433 | throws ProgrammingError when the bases are equivalent, otherwise the rectangular layout's error |
| FockContribution.GenericFockContribution.SetKmatSym | mpqc/src/lib/chemistry/qc/scf/fockbuild.cc:457-466 | as SetJmatSym for K |
| FockContribution.GenericFockContribution.SetKmatRect | mpqc/src/lib/chemistry/qc/scf/fockbuild.cc:446-455 | as SetJmatRect for K |
| FockContribution.GenericFockContribution.SetPmat | mpqc/src/lib/chemistry/qc/scf/fockbuild.cc:468-472 | the density matrix is laid out over the density basis and copied in |
| FockContribution.GenericFockContribution.CopySlot | mpqc/src/lib/chemistry/qc/scf/fockbuild.cc:504-509 | slot i's J (and its K unless K is J) gets its own zeroed arena |
| FockContribution.GenericFockContribution.Copy | mpqc/src/lib/chemistry/qc/scf/fockbuild.cc:498-511 | every written matrix gets its own zeroed arena; density matrices are not copied |
| FockContribution.GenericFockContribution.AccumSlot | mpqc/src/lib/chemistry/qc/scf/fockbuild.cc:523-526 | slot i's J, and its K unless K is J, gains the other contribution's values, or throws on an ndata mismatch |
| FockContribution.GenericFockContribution.AccumFock | mpqc/src/lib/chemistry/qc/scf/fockbuild.cc:522-527 | the first loop of accum succeeds exactly when every slot fits, and then adds every slot |
| FockContribution.GenericFockContribution.AccumDensity | mpqc/src/lib/chemistry/qc/scf/fockbuild.cc:528-530 | the density loop succeeds exactly when the sizes agree, and then adds every density matrix |
| FockContribution.GenericFockContribution.Accum | mpqc/src/lib/chemistry/qc/scf/fockbuild.cc:513-532 | throws invalid_argument when nfmat or npmat differ, with nothing changed; succeeds exactly when compatible, adding every matrix and the integral count |
| FockContribution.GenericFockContribution.AccumRemote | mpqc/src/lib/chemistry/qc/scf/fockbuild.cc:474-483 | every J, and every K that is not J, gains the other processes' sums |
| FockContribution.GenericFockContribution.UpdateSlot | mpqc/src/lib/chemistry/qc/scf/fockbuild.cc:489-494 | slot i's J, and its K unless K is J, is symmetrised and summed into its bound matrix |
| FockContribution.GenericFockContribution.Update | mpqc/src/lib/chemistry/qc/scf/fockbuild.cc:485-496 | every slot is symmetrised and folded into its bound matrices |
| FockContribution.GenericFockContribution.Densities | mpqc/src/lib/chemistry/qc/scf/fockbuild.cc:546-548 | the arenas of the first q density matrices |
| FockContribution.GenericFockContribution.BlockMax | mpqc/src/lib/chemistry/qc/scf/fockbuild.cc:570-578 | the largest absolute value of block (I, J) |
| FockContribution.GenericFockContribution.PmaxContrib | mpqc/src/lib/chemistry/qc/scf/fockbuild.cc:553-591 | each table entry becomes the larger of itself and its block's exponent |
| FockContribution.GenericFockContribution.PmaxRow | mpqc/src/lib/chemistry/qc/scf/fockbuild.cc:567-589 | row ish of the table is raised and every other entry is kept |
| FockContribution.GenericFockContribution.ComputePmax | mpqc/src/lib/chemistry/qc/scf/fockbuild.cc:538-551 | a fresh table of n(n+1)/2 entries, each the largest block exponent over all density matrices |
| FockContribution.GenericFockContribution.RaiseAll | mpqc/src/lib/chemistry/qc/scf/fockbuild.cc:546-548 | the loop over density matrices raises the table through all of them |
| FockContribution.GenericFockContribution.PmaxStep | mpqc/src/lib/chemistry/qc/scf/fockbuild.cc:547 | one density matrix raises the table from q to q+1 matrices |
| FockContribution.UpdateMatrix | mpqc/src/lib/chemistry/qc/scf/fockbuild.cc:489-490 | one matrix is symmetrised and summed into its bound matrix |
| FockContribution.NewPmax | mpqc/src/lib/chemistry/qc/scf/fockbuild.cc:541-544 | a fresh table of nb1(nb1+1)/2 entries, all SCHAR_MIN |
| ShellLayout.SlotOf | mpqc/src/lib/chemistry/qc/scf/fockbuild.cc:100-112 | every arena position of a symmetric layout lies in one block (I, J), J <= I, at one row and column of it |
| FockMatrix.FockBuildMatrix.CopyInRow | mpqc/src/lib/chemistry/qc/scf/fockbuild.cc:114-124 | copy-in of one row of the lower triangle writes that row's elements (and their mirrors in diagonal blocks) and keeps what earlier rows wrote |
| FockMatrix.FockBuildMatrix.CopyOutRow | mpqc/src/lib/chemistry/qc/scf/fockbuild.cc:114-116 | copy-out of one row raises that row's elements by their arena values and keeps earlier rows |
| FockMatrix.FockBuildMatrix.FixDiagonalBlock | mpqc/src/lib/chemistry/qc/scf/fockbuild.cc:211-223 | one pass of the I loop symmetrises diagonal block I and keeps the blocks before it |
| FockMatrix.FockBuildMatrix.FixDiagonalRow | mpqc/src/lib/chemistry/qc/scf/fockbuild.cc:214-222 | one pass of the i loop makes row i of the block agree with column i |
| FockMatrix.FixRow | mpqc/src/lib/chemistry/qc/scf/fockbuild.cc:215-221 | the j loop for row i sets each pair (i, j), j < i, and its mirror to their mean |
| FockContribution.PmaxAfter | mpqc/src/lib/chemistry/qc/scf/fockbuild.cc:538-551 | every entry of the screening table stays in the signed char range |
| FockTasks.KRun | mpqc/src/lib/chemistry/qc/scf/fockbuild.cc:665 | the k loop of one (i, j) yields m tasks |
| FockTasks.KRunMembers | mpqc/src/lib/chemistry/qc/scf/fockbuild.cc:665 | the k loop of (i, j) yields exactly those tasks (i, j, k) with k below its bound |
| FockTasks.JRunMembers | mpqc/src/lib/chemistry/qc/scf/fockbuild.cc:656-665 | the j loop of row i yields exactly those tasks whose pair is kept, with k below its bound |
| FockTasks.JRunNoDup | mpqc/src/lib/chemistry/qc/scf/fockbuild.cc:656-665 | the j loop yields no task twice |
| FockTasks.RowNoDup | mpqc/src/lib/chemistry/qc/scf/fockbuild.cc:650-665 | a row of the loop nest yields no task twice |
| FockTasks.IRunSound | mpqc/src/lib/chemistry/qc/scf/fockbuild.cc:650-652 | the first m rows yield only tasks of kept rows below m |
| FockTasks.IRunNoDup | mpqc/src/lib/chemistry/qc/scf/fockbuild.cc:650-665 | the first m rows yield no task twice |
| FockTasks.TasksExactlyOnce | mpqc/src/lib/chemistry/qc/scf/fockbuild.cc:650-665 | the loop nest enumerates exactly those tasks its bounds and filters admit, each once |
| FockTasks.TaskAt | mpqc/src/lib/chemistry/qc/scf/fockbuild.cc:665 | task (i, j, k) has its task_index at the offset its loops give it |
| FockTasks.RowSlice | mpqc/src/lib/chemistry/qc/scf/fockbuild.cc:650-665 | tasks of row i form a contiguous slice of the list of tasks |
| FockTasks.PairSlice | mpqc/src/lib/chemistry/qc/scf/fockbuild.cc:656-665 | tasks of pair (i, j) form a contiguous slice of their row |
| FockTasks.OwnedExactlyOnce | mpqc/src/lib/chemistry/qc/scf/fockbuild.cc:665-671 | for every task_index exactly one (process, thread) runs it: process task_index % nproc, then the thread the running thread_index selects |
| FockTasks.SelectedMembers | mpqc/src/lib/chemistry/qc/scf/fockbuild.cc:665-671 | a thread's tasks are exactly the listed tasks it owns |
| FockTasks.TaskRunsExactlyOnce | mpqc/src/lib/chemistry/qc/scf/fockbuild.cc:650-671 | over all processes and threads every task of the loop nest runs exactly once |
| FockSchedule.CanSymOffsetIsPairIndex | mpqc/src/lib/chemistry/qc/scf/fockbuild.cc:657 | can_sym_offset(i, j) is the lower-triangle pair index |
| FockSchedule.GenSymOffsetSymmetric | mpqc/src/lib/chemistry/qc/scf/fockbuild.cc:677 | gen_sym_offset does not depend on the order of its arguments and is can_sym_offset of the ordered pair |
| FockSchedule.ScreenCandidates | mpqc/src/lib/chemistry/qc/scf/fockbuild.cc:675-684 | the six density exponents a quartet is screened with |
| FockSchedule.ScreenExponentIsMax | mpqc/src/lib/chemistry/qc/scf/fockbuild.cc:675-684 | pmaxijkl is the largest of its six candidates (three of them lowered by one) and is one of them |
| FockSchedule.DistinctCard | mpqc/src/lib/chemistry/qc/scf/fockbuild.cc:706-757 | a list of distinct index quartets has as many elements as its set |
| FockSchedule.ClassDegeneracy | mpqc/src/lib/chemistry/qc/scf/fockbuild.cc:706-757 | the permutation class chosen for a canonical quartet has as many distinct index images as its degeneracy |
| FockSchedule.IntegralCountAppend | mpqc/src/lib/chemistry/qc/scf/fockbuild.cc:759 | the integral count of two dispatch lists is the sum of their counts |
| FockSchedule.PairBound | mpqc/src/lib/chemistry/qc/scf/fockbuild.cc:675-677 | pmaxijk is the pair exponent of (i, j, k) |
| FockSchedule.QuartetBound | mpqc/src/lib/chemistry/qc/scf/fockbuild.cc:681-684 | pmaxijkl is the screening exponent of the quartet |
| FockSchedule.RunQuartet | mpqc/src/lib/chemistry/qc/scf/fockbuild.cc:680-760 | one pass of the l loop appends the quartet's dispatch when it survives symmetry and screening, and counts its integrals |
| FockSchedule.RunTask | mpqc/src/lib/chemistry/qc/scf/fockbuild.cc:673-761 | the l loop of one task produces that task's dispatches and count |
| FockSchedule.F11WorkSnoc | mpqc/src/lib/chemistry/qc/scf/fockbuild.cc:650-763 | work over a task list extended by one task is the old work plus that task's |
| FockSchedule.SelectStep | mpqc/src/lib/chemistry/qc/scf/fockbuild.cc:665-671 | passing one task_index adds that task's work exactly when this thread owns it |
| FockSchedule.RunOne | mpqc/src/lib/chemistry/qc/scf/fockbuild.cc:665-761 | one pass of the k loop keeps the run's state: the work of the owned tasks so far and its integral count |
| FockSchedule.RunPair | mpqc/src/lib/chemistry/qc/scf/fockbuild.cc:665-761 | the k loop of one pair advances task_index by i + 1 and keeps the run's state |
| FockSchedule.RunRowStep | mpqc/src/lib/chemistry/qc/scf/fockbuild.cc:656-761 | one pass of the j loop advances over the pair's tasks, or skips a pair not in the petite list |
| FockSchedule.RunRow | mpqc/src/lib/chemistry/qc/scf/fockbuild.cc:654-762 | the j loop of one row advances over the row's tasks |
| FockSchedule.Run | mpqc/src/lib/chemistry/qc/scf/fockbuild.cc:636-764 | F11_P11::run produces exactly the work of those tasks this thread owns, with its integral count |
| FockSchedule.QuartetWorkMembers | mpqc/src/lib/chemistry/qc/scf/fockbuild.cc:686-757 | a quartet contributes a dispatch exactly when it survives, and then its own |
| FockSchedule.LWorkMembers | mpqc/src/lib/chemistry/qc/scf/fockbuild.cc:680-760 | the l loop of a task dispatches exactly its surviving quartets below the bound |
| FockSchedule.TaskWorkMembers | mpqc/src/lib/chemistry/qc/scf/fockbuild.cc:680 | a task dispatches exactly its surviving quartets up to l = (k == i ? j : k) |
| FockSchedule.F11WorkMembers | mpqc/src/lib/chemistry/qc/scf/fockbuild.cc:650-763 | a dispatch is in the work of a task list exactly when one of its tasks dispatches it |
| FockSchedule.ThreadWorkTask | mpqc/src/lib/chemistry/qc/scf/fockbuild.cc:636-764 | a thread dispatches a quartet exactly when it owns the quartet's task and the quartet survives |
| FockSchedule.DispatchedExactlyOnce | mpqc/src/lib/chemistry/qc/scf/fockbuild.cc:636-764 | over all processes and threads, a quartet is dispatched exactly when it is canonical, in the petite list and survives screening, and then by exactly one thread |
| FockScheduleF12.PassWorkSnoc | mpqc/src/lib/chemistry/qc/scf/fockbuild.cc:818-849 | work over a task list extended by one task is the old work plus that task's |
| FockScheduleF12.PassSelectStep | mpqc/src/lib/chemistry/qc/scf/fockbuild.cc:823-829 | passing one task_index adds that task's work exactly when this thread owns it |
| FockScheduleF12.JTask | mpqc/src/lib/chemistry/qc/scf/fockbuild.cc:831-846 | the L loop of a J task dispatches L = 0..K, as p34 when K != L and e otherwise |
| FockScheduleF12.KTask | mpqc/src/lib/chemistry/qc/scf/fockbuild.cc:879-888 | the L loop of a K task dispatches L = 0..nshell3-1 |
| FockScheduleF12.JOne | mpqc/src/lib/chemistry/qc/scf/fockbuild.cc:823-847 | one pass of the K loop of run_J keeps the pass state |
| FockScheduleF12.JPair | mpqc/src/lib/chemistry/qc/scf/fockbuild.cc:821-848 | the K loop of one (I, J) of run_J advances over that pair's tasks |
| FockScheduleF12.JRow | mpqc/src/lib/chemistry/qc/scf/fockbuild.cc:818-849 | the J loop of row I of run_J, with J up to I when the bases are equivalent |
| FockScheduleF12.RunJ | mpqc/src/lib/chemistry/qc/scf/fockbuild.cc:805-850 | run_J produces exactly the work of the J tasks this thread owns |
| FockScheduleF12.KOne | mpqc/src/lib/chemistry/qc/scf/fockbuild.cc:871-889 | one pass of the K loop of run_K keeps the pass state; task_index stays 0 |
| FockScheduleF12.KPair | mpqc/src/lib/chemistry/qc/scf/fockbuild.cc:868-890 | the K loop of one (I, J) of run_K |
| FockScheduleF12.KRow | mpqc/src/lib/chemistry/qc/scf/fockbuild.cc:866-891 | the J loop of row I of run_K |
| FockScheduleF12.RunK | mpqc/src/lib/chemistry/qc/scf/fockbuild.cc:853-892 | run_K produces exactly the work of the K tasks this thread owns |
| FockScheduleF12.Run | mpqc/src/lib/chemistry/qc/scf/fockbuild.cc:797-802 | run is run_J followed by run_K |
| FockScheduleF12.PassLMembers | mpqc/src/lib/chemistry/qc/scf/fockbuild.cc:832-846 | the L loop of a task dispatches exactly the L below its bound |
| FockScheduleF12.PassWorkMembers | mpqc/src/lib/chemistry/qc/scf/fockbuild.cc:818-849 | a dispatch is in the work of a task list exactly when one of its tasks dispatches it |
| FockScheduleF12.PassThreadWorkTask | mpqc/src/lib/chemistry/qc/scf/fockbuild.cc:805-892 | a thread dispatches a quartet exactly when it owns its task and L is below the bound |
| FockScheduleF12.PassDispatchedExactlyOnce | mpqc/src/lib/chemistry/qc/scf/fockbuild.cc:805-892 | over all processes and threads every quartet of a pass is dispatched exactly once |
| FockScheduleF12.KPassOnlyOnRankZero | mpqc/src/lib/chemistry/qc/scf/fockbuild.cc:859-873 | since task_index is never incremented in run_K, processes other than 0 do no K work |
| FockBuild.ChooseScheme | mpqc/src/lib/chemistry/qc/scf/fockbuild.cc:996-1012 | the single-basis threads exactly when the second Fock basis and the density basis are both equivalent to the first |
| FockBuild.FockBuildThread.constructor | mpqc/src/lib/chemistry/qc/scf/fockbuild.cc:596-634 | a thread records its number, count and bases, starts at accuracy DBL_EPSILON without pmax, and shares out the unused integral storage |
| FockBuild.FockBuild.constructor | mpqc/src/lib/chemistry/qc/scf/fockbuild.cc:897-920 | missing second Fock and density bases default to the first, accuracy is DBL_EPSILON, and every thread is of the chosen kind over those bases |
| FockBuild.FockBuild.InitThreads | mpqc/src/lib/chemistry/qc/scf/fockbuild.cc:983-1012 | a fresh array of distinct threads, thread i numbered i, all of the chosen kind |
| FockBuild.FockBuild.SetupThreads | mpqc/src/lib/chemistry/qc/scf/fockbuild.cc:950-961 | every thread gets the accuracy, the pmax table and contribution i, whose copy leaves a zeroed arena |
| FockBuild.FockBuild.Build | mpqc/src/lib/chemistry/qc/scf/fockbuild.cc:944-971 | the contribution ends as the other processes' part plus what every thread added, and its integral count as the sum of the threads' counts |
| Aufbau.ScanRowSoFar | mpqc/src/lib/chemistry/qc/scf/clscf.cc:273-279 | scanning the rest of an irrep keeps the running candidate the first strict minimum below the sentinel |
| Aufbau.ScanFromSoFar | mpqc/src/lib/chemistry/qc/scf/clscf.cc:269-280 | scanning the remaining irreps keeps the candidate the first minimum so far |
| Aufbau.Lowest | mpqc/src/lib/chemistry/qc/scf/clscf.cc:266-280 | the position found, when any, is a valid orbital whose energy is below the 999999999 sentinel |
| Aufbau.LowestIsFirstMinimum | mpqc/src/lib/chemistry/qc/scf/clscf.cc:266-280 | no position is found exactly when every energy is at least the sentinel; otherwise the first minimum in (irrep, orbital) order is |
| Aufbau.LowestNoneIffEmpty | mpqc/src/lib/chemistry/qc/scf/clscf.cc:266-280 | no position is found exactly when no orbital is left |
| Aufbau.LowestIsMin | mpqc/src/lib/chemistry/qc/scf/clscf.cc:266-280 | the position found has the lowest energy of all |
| Aufbau.RowAvailBound | mpqc/src/lib/chemistry/qc/scf/clscf.cc:281 | an irrep has no more available orbitals than orbitals, and none exactly when all are marked |
| Aufbau.AvailZero | mpqc/src/lib/chemistry/qc/scf/clscf.cc:281 | no orbital is available exactly when every energy is at least the sentinel |
| Aufbau.MarkAvail | mpqc/src/lib/chemistry/qc/scf/clscf.cc:281 | marking the lowest orbital with the sentinel removes exactly one available orbital, from its irrep |
| Aufbau.SumBump | mpqc/src/lib/chemistry/qc/scf/clscf.cc:282 | incrementing one irrep's count increments the total by one |
| Aufbau.FillSucceeds | mpqc/src/lib/chemistry/qc/scf/clscf.cc:264-283 | the filling loop finds a lowest orbital on every pass exactly when tndocc does not exceed the available orbitals |
| Aufbau.FillCounts | mpqc/src/lib/chemistry/qc/scf/clscf.cc:264-283 | a completed fill places max(tndocc, 0) orbitals and uses up as many |
| Aufbau.FillPerIrrep | mpqc/src/lib/chemistry/qc/scf/clscf.cc:264-283 | each irrep's new count is the number of its orbitals the fill marked |
| Aufbau.FillTakesLowest | mpqc/src/lib/chemistry/qc/scf/clscf.cc:264-283 | the fill only marks orbitals, and every orbital it marks is no higher than every orbital it leaves |
| Aufbau.SecondShellIsLowestElsewhere | mpqc/src/lib/chemistry/qc/scf/tcscf.cc:408-436 | the second open shell is the lowest remaining orbital of an irrep other than the first, when one exists |
| Aufbau.OpenPassFacts | mpqc/src/lib/chemistry/qc/scf/tcscf.cc:406-442 | the open-shell pass finds two irreps, ordered, exactly when two different irreps still have orbitals |
| Aufbau.FindLowest | mpqc/src/lib/chemistry/qc/scf/clscf.cc:266-280 | the search loop computes the specified lowest position |
| Aufbau.FillLoop | mpqc/src/lib/chemistry/qc/scf/clscf.cc:261-283 | the filling loop computes the specified fill from zero counts |
| Aufbau.OpenShellLoop | mpqc/src/lib/chemistry/qc/scf/tcscf.cc:406-442 | the open-shell loop, with its retry when both picks land in one irrep, computes the specified pair |
| ClSCF.TruncDiv | mpqc/src/lib/chemistry/qc/scf/clscf.cc:104 | C integer division truncates toward zero |
| ClSCF.CLSCF.constructor | mpqc/src/lib/chemistry/qc/scf/clscf.cc:83-146 | tndocc is ndocc, or (Znuc - charge)/2 truncated; docc given means user occupations copied per irrep, with 0 for a missing entry; otherwise set_occupations; maxiter defaults to 40 |
| ClSCF.CLSCF.Occupation | mpqc/src/lib/chemistry/qc/scf/clscf.cc:171-175 | occupation 2 below ndocc in the irrep and 0 from there on |
| ClSCF.CLSCF.NFockMatrices | mpqc/src/lib/chemistry/qc/scf/clscf.cc:178-181 | one Fock matrix |
| ClSCF.CLSCF.Fock | mpqc/src/lib/chemistry/qc/scf/clscf.cc:184-194 | fock(n) aborts exactly when n > 0 and otherwise returns the closed-shell Fock matrix |
| ClSCF.CLSCF.SetOccupations | mpqc/src/lib/chemistry/qc/scf/clscf.cc:218-309 | user occupations are kept; one irrep gets all tndocc orbitals when unset; otherwise succeeds exactly when the fill completes, replacing ndocc by it |
| ClSCF.ElectronsInIrrep | mpqc/src/lib/chemistry/qc/scf/clscf.cc:171-175 | the first nf orbitals of an irrep hold 2 min(nf, ndocc) electrons |
| ClSCF.AufbauOccupations | mpqc/src/lib/chemistry/qc/scf/clscf.cc:261-283 | a completed fill sums to max(tndocc, 0), and each irrep's count lies between 0 and its available orbitals |
| ClSCF.AufbauSucceeds | mpqc/src/lib/chemistry/qc/scf/clscf.cc:264-283 | the fill completes exactly when tndocc does not exceed the orbitals |
| ClSCF.LagProcess | mpqc/src/lib/chemistry/qc/scf/clscf.cc:479-489 | CLLag::process zeroes the elements of unoccupied rows of a block in place |
| ClSCF.LagZeroesVirtuals | mpqc/src/lib/chemistry/qc/scf/clscf.cc:479-489 | rows of occupied orbitals are kept, the others become 0, and applying it twice changes nothing more |
| TcSCF.OpensGrow | mpqc/src/lib/chemistry/qc/scf/tcscf.cc:179-190 | scanning more irreps never finds fewer open shells |
| TcSCF.ShellsFromOpens | mpqc/src/lib/chemistry/qc/scf/tcscf.cc:179-190 | the socc scan from irrep i ends with the first two irreps with singly occupied orbitals, or aborts on a third |
| TcSCF.UserShells | mpqc/src/lib/chemistry/qc/scf/tcscf.cc:176-190 | the whole socc scan gives the first two open-shell irreps, or aborts when there are more than two |
| TcSCF.OpensMembers | mpqc/src/lib/chemistry/qc/scf/tcscf.cc:179-190 | the open irreps are exactly those with a nonzero socc entry, in increasing order |
| TcSCF.OpensSnoc | mpqc/src/lib/chemistry/qc/scf/tcscf.cc:179-190 | an open irrep n - 1 extends the list of open irreps at its end, keeping it exact and increasing |
| TcSCF.KeptShellsAgree | mpqc/src/lib/chemistry/qc/scf/tcscf.cc:465 | when set_occupations does not report a change, the new open shells are the old ones |
| TcSCF.AutoOccupationsFacts | mpqc/src/lib/chemistry/qc/scf/tcscf.cc:380-442 | automatic occupations, when found, place max(tndocc, 0) doubly occupied orbitals and two ordered open-shell irreps |
| TcSCF.TCSCF.Init | mpqc/src/lib/chemistry/qc/scf/tcscf.cc:173-174 | the object starts without occupations and with both open shells -1 |
| TcSCF.TCSCF.Occupation | mpqc/src/lib/chemistry/qc/scf/tcscf.cc:257-267 | occupation 2 below ndocc and 0 above it; at ndocc, occa or occb in the open irreps |
| TcSCF.TCSCF.AlphaOccupation | mpqc/src/lib/chemistry/qc/scf/tcscf.cc:269-277 | alpha occupation 1 below ndocc, half occa at ndocc in the first open irrep and 0 otherwise |
| TcSCF.TCSCF.BetaOccupation | mpqc/src/lib/chemistry/qc/scf/tcscf.cc:279-287 | beta occupation 1 below ndocc, half occb at ndocc in the second open irrep and 0 otherwise |
| TcSCF.TCSCF.NFockMatrices | mpqc/src/lib/chemistry/qc/scf/tcscf.cc:289-293 | four Fock matrices |
| TcSCF.TCSCF.Fock | mpqc/src/lib/chemistry/qc/scf/tcscf.cc:295-313 | fock(n) aborts exactly when n > 3; a negative n returns the last, kb |
| TcSCF.TCSCF.SetOccupations | mpqc/src/lib/chemistry/qc/scf/tcscf.cc:347-479 | user occupations are kept; otherwise succeeds exactly when both passes complete, takes the new counts, and takes the new open shells when none were set or they changed |
| TcSCF.ElectronsInIrrep | mpqc/src/lib/chemistry/qc/scf/tcscf.cc:257-267 | an irrep's first nf orbitals hold 2 min(nf, ndocc) electrons plus its open-shell occupation when nf passes ndocc |
| TcSCF.AlphaElectronsInIrrep | mpqc/src/lib/chemistry/qc/scf/tcscf.cc:269-277 | the alpha electrons of an irrep's first nf orbitals are min(nf, ndocc), plus half of occa once nf passes ndocc in the osa irrep |
| TcSCF.BetaElectronsInIrrep | mpqc/src/lib/chemistry/qc/scf/tcscf.cc:279-287 | the beta electrons of an irrep's first nf orbitals are min(nf, ndocc), plus half of occb once nf passes ndocc in the osb irrep |
| TcSCF.OccupationSplits | mpqc/src/lib/chemistry/qc/scf/tcscf.cc:257-287 | away from the open-shell orbital at ndocc, occupation is alpha plus beta occupation |
| TcSCF.FockIndicesDistinct | mpqc/src/lib/chemistry/qc/scf/tcscf.cc:295-313 | the four Fock indices give four different matrices |
| TcSCF.Create | mpqc/src/lib/chemistry/qc/scf/tcscf.cc:105-217 | aborts with one irrep or a third socc irrep; tndocc defaults to (Znuc - charge - 2)/2 truncated, maxiter to 200, level shift to 0.25, occb is 2 - occa; user or automatic occupations |
| IntCoor.SetIntCoor.constructor | mpqc/src/lib/chemistry/molecule/coor.cc:212-214 | a new set holds no coordinates |
| IntCoor.SetIntCoor.N | mpqc/src/lib/chemistry/molecule/coor.cc:290-294 | n() is the number of coordinates held |
| IntCoor.SetIntCoor.CoorAt | mpqc/src/lib/chemistry/molecule/coor.cc:296-300 | coor(i), for i below n(), is one of the coordinates held |
| IntCoor.SetIntCoor.Add | mpqc/src/lib/chemistry/molecule/coor.cc:269-273 | add(coor) appends the coordinate: n() grows by one and the last coordinate is the new one, the others unchanged |
| IntCoor.SetIntCoor.AddSet | mpqc/src/lib/chemistry/molecule/coor.cc:275-281 | add(set) appends the other set's coordinates, as they were on entry, in order (corrected behaviour when the set is added to itself) |
| IntCoor.SetIntCoor.Pop | mpqc/src/lib/chemistry/molecule/coor.cc:283-287 | pop() drops exactly the last coordinate |
| IntCoor.SetIntCoor.Clear | mpqc/src/lib/chemistry/molecule/coor.cc:406-410 | clear() leaves no coordinates |
| IntCoor.AddThenPop | mpqc/src/lib/chemistry/molecule/coor.cc:269-287 | a pop() after an add() restores the set as it was |
| IntCoor.SelfAdd | mpqc/src/lib/chemistry/molecule/coor.cc:275-281 | the add(set) loop as written, run on its own set: after k rounds the list is k longer and still starts with the original coordinates |
| IntCoor.SelfAddNeverStops | mpqc/src/lib/chemistry/molecule/coor.cc:275-281 | adding a non-empty set to itself as written never reaches its bound: after k rounds the counter is still below n(), and every added coordinate repeats the one n() places earlier |
| IntCoor.FirstEquivalent | mpqc/src/lib/chemistry/molecule/coor.cc:498-503 | the search of add() stops at the first stored coordinate equivalent to the new one, or at the end when none is |
| IntCoor.AddTerm | mpqc/src/lib/chemistry/molecule/coor.cc:485-509 | add(coor, coef) keeps coef_ and coor_ the same length |
| IntCoor.AddPrefix | mpqc/src/lib/chemistry/molecule/coor.cc:489-494 | unfolding the first m terms of a nested sum keeps coef_ and coor_ the same length |
| IntCoor.AddPrefixStep | mpqc/src/lib/chemistry/molecule/coor.cc:489-494 | a nested sum is unfolded term by term, each term added with its coefficient times coef |
| IntCoor.MergeRule | mpqc/src/lib/chemistry/molecule/coor.cc:496-508 | a simple coordinate is added to the coefficient of the first equivalent term, or appended with coef when no term is equivalent |
| IntCoor.AddTermFlat | mpqc/src/lib/chemistry/molecule/coor.cc:485-509 | add() never stores a sum: a list with no sums keeps none |
| IntCoor.AddPrefixFlat | mpqc/src/lib/chemistry/molecule/coor.cc:489-494 | unfolding a nested sum stores no sum |
| IntCoor.AddTermValue | mpqc/src/lib/chemistry/molecule/coor.cc:485-509 | when equivalent coordinates have equal values, add(coor, coef) raises the value of the sum (as update_value computes it) by exactly coef times the value of coor |
| IntCoor.MergeValue | mpqc/src/lib/chemistry/molecule/coor.cc:496-508 | merging or appending a simple coordinate raises the sum's value by coef times its value |
| IntCoor.AddPrefixValue | mpqc/src/lib/chemistry/molecule/coor.cc:489-494 | unfolding the first m terms of a nested sum raises the value by coef times the value of those m terms |
| IntCoor.ScaledValueIsScaled | mpqc/src/lib/chemistry/molecule/coor.cc:583-597 | the terms scaled by coef one by one total coef times the sum's value |
| IntCoor.PrefixStepValue | mpqc/src/lib/chemistry/molecule/coor.cc:489-494 | each unfolded term adds its own scaled value |
| IntCoor.ListValueBump | mpqc/src/lib/chemistry/molecule/coor.cc:583-597 | raising one coefficient raises update_value's total by that increase times the term's value, when the term is counted |
| IntCoor.ListValuePrefix | mpqc/src/lib/chemistry/molecule/coor.cc:583-597 | update_value's partial totals do not see terms appended later |
| IntCoor.SumIntCoor.constructor | mpqc/src/lib/chemistry/molecule/coor.cc:423-426 | a new sum has no terms |
| IntCoor.SumIntCoor.N | mpqc/src/lib/chemistry/molecule/coor.cc:479-483 | n() is the number of terms, and coef_ and coor_ have that length |
| IntCoor.SumIntCoor.Add | mpqc/src/lib/chemistry/molecule/coor.cc:485-509 | add(coor, coef) keeps the lists parallel and free of sums, and leaves the terms AddTerm gives |
| IntCoorGen.BondedSymmetric | mpqc/src/lib/chemistry/molecule/coor.cc:1080-1081 | bonds(i, j) and bonds(j, i) name the same lower-triangle entry |
| IntCoorGen.SetBond | mpqc/src/lib/chemistry/molecule/coor.cc:838 | bonds.set(i, j) bonds exactly the pair i, j and leaves every other pair as it was |
| IntCoorGen.Decimal | mpqc/src/lib/chemistry/molecule/coor.cc:974 | the printed counter of a label is never empty |
| IntCoorGen.StretchesSnoc | mpqc/src/lib/chemistry/molecule/coor.cc:972-975 | the k-th set bond becomes Stre labelled s k over atoms j+1 and i+1 |
| IntCoorGen.OrderedAppend | mpqc/src/lib/chemistry/molecule/coor.cc:969-978 | rows visited one after another keep the pairs in row-major order |
| IntCoorGen.RowPairsMember | mpqc/src/lib/chemistry/molecule/coor.cc:970-977 | row i of add_bonds meets exactly its set entries below column m |
| IntCoorGen.RowPairsOrdered | mpqc/src/lib/chemistry/molecule/coor.cc:970-977 | a row is met column by column, each column once |
| IntCoorGen.PairsMember | mpqc/src/lib/chemistry/molecule/coor.cc:969-978 | add_bonds meets every set entry j <= i < natom, and nothing else |
| IntCoorGen.PairsOrdered | mpqc/src/lib/chemistry/molecule/coor.cc:969-978 | and it meets them once each, in row-major order |
| IntCoorGen.AddBonds | mpqc/src/lib/chemistry/molecule/coor.cc:964-979 | add_bonds appends one labelled stretch per set bond, in row-major order, after what the list held |
| IntCoorGen.HTerminal | mpqc/src/lib/chemistry/molecule/coor.cc:1076-1083 | hterminal(i) holds exactly when i has one bonded neighbour with Z > 1 |
| IntCoorGen.HeavyCountNone | mpqc/src/lib/chemistry/molecule/coor.cc:1079-1081 | the count is zero exactly when no neighbour is heavy |
| IntCoorGen.HeavyCountSingle | mpqc/src/lib/chemistry/molecule/coor.cc:1079-1082 | given one heavy neighbour, the count is one exactly when it is the only one |
| IntCoorGen.OutsAppend | mpqc/src/lib/chemistry/molecule/coor.cc:1160-1162 | the out-of-plane labels continue counting across the loops |
| IntCoorGen.LUpToMember | mpqc/src/lib/chemistry/molecule/coor.cc:1157-1164 | the innermost loop emits exactly the partners l < k of the centre other than the terminal atom |
| IntCoorGen.KUpToMember | mpqc/src/lib/chemistry/molecule/coor.cc:1155-1166 | the k loop emits exactly the pairs of partners l < k of the centre |
| IntCoorGen.JUpToMember | mpqc/src/lib/chemistry/molecule/coor.cc:1153-1167 | the j loop emits exactly the quadruples over terminal neighbours of degree 1 |
| IntCoorGen.QuadsMember | mpqc/src/lib/chemistry/molecule/coor.cc:1146-1168 | add_out emits exactly the quadruples whose centre has degree 3, whose j is a terminal neighbour and whose k, l (l < k) are its other neighbours |
| IntCoorGen.LUpToDistinct | mpqc/src/lib/chemistry/molecule/coor.cc:1156-1162 | the l loop emits no quadruple twice |
| IntCoorGen.KUpToDistinct | mpqc/src/lib/chemistry/molecule/coor.cc:1154-1163 | the k loop emits no quadruple twice |
| IntCoorGen.JUpToDistinct | mpqc/src/lib/chemistry/molecule/coor.cc:1151-1165 | the j loop emits no quadruple twice |
| IntCoorGen.QuadsDistinct | mpqc/src/lib/chemistry/molecule/coor.cc:1147-1167 | add_out emits every quadruple at most once, so each out-of-plane coordinate it appends is new |
| IntCoorGen.AddOut | mpqc/src/lib/chemistry/molecule/coor.cc:1138-1169 | add_out appends those quadruples, in loop order, as Out coordinates labelled o1, o2, ... |
| IntCoorGen.OutsForCentre | mpqc/src/lib/chemistry/molecule/coor.cc:1149-1167 | the body for one centre appends its quadruples and advances the label counter by their number |
| IntCoorGen.OutsForTerminal | mpqc/src/lib/chemistry/molecule/coor.cc:1153-1166 | the body for one terminal atom appends its quadruples and advances the counter by their number |
| IntCoorGen.OutsForPair | mpqc/src/lib/chemistry/molecule/coor.cc:1157-1164 | the body for one partner k appends its quadruples and advances the counter by their number |
| IntCoorBonds.Atoms | mpqc/src/lib/chemistry/molecule/coor.cc:873 | the set of atom indices below natom |
| IntCoorBonds.RowContactsMember | mpqc/src/lib/chemistry/molecule/coor.cc:832-839 | row i of the first pass bonds exactly the atoms j < i closer than the scaled sum of radii |
| IntCoorBonds.ContactsMember | mpqc/src/lib/chemistry/molecule/coor.cc:828-840 | after the first pass the bonds are the given ones plus every close pair, and nothing else |
| IntCoorBonds.ContactsShape | mpqc/src/lib/chemistry/molecule/coor.cc:828-840 | the first pass bonds only atoms of the molecule |
| IntCoorBonds.CloseContacts | mpqc/src/lib/chemistry/molecule/coor.cc:828-840 | the first loop nest leaves exactly that bond relation |
| IntCoorBonds.ReachedZero | mpqc/src/lib/chemistry/molecule/coor.cc:846 | atom 0 is where the search starts |
| IntCoorBonds.ReachedStep | mpqc/src/lib/chemistry/molecule/coor.cc:858-865 | an atom bonded to a reached atom is reached |
| IntCoorBonds.ReachedMono | mpqc/src/lib/chemistry/molecule/coor.cc:915 | adding bonds keeps every reached atom reached |
| IntCoorBonds.ClosedPath | mpqc/src/lib/chemistry/molecule/coor.cc:849-871 | a walk along bonds from inside a set no bond leaves stays inside it |
| IntCoorBonds.ClosedReach | mpqc/src/lib/chemistry/molecule/coor.cc:849-873 | so when the search stops, every atom connected to atom 0 is in boundatoms |
| IntCoorBonds.NextAtoms | mpqc/src/lib/chemistry/molecule/coor.cc:857-865 | nextnewatoms is exactly the atoms bonded to a new atom and not yet bound |
| IntCoorBonds.Spread | mpqc/src/lib/chemistry/molecule/coor.cc:850-871 | the inner search grows boundatoms to a set that no bond leaves, every member of it reached from atom 0 |
| IntCoorBonds.Nearest | mpqc/src/lib/chemistry/molecule/coor.cc:882-897 | no pair is found exactly when every atom or none is bound; otherwise the pair found is an unbound and a bound atom at the least distance, the first such in loop order |
| IntCoorBonds.JoinedMember | mpqc/src/lib/chemistry/molecule/coor.cc:908-917 | the new bonds join nearest_unbound to nearest_bound and to every bound atom within 1.1 times the nearest distance, and to no other atom |
| IntCoorBonds.JoinedTouch | mpqc/src/lib/chemistry/molecule/coor.cc:908-917 | every new bond has nearest_unbound at one end |
| IntCoorBonds.EntryInjective | mpqc/src/lib/chemistry/molecule/coor.cc:838 | a lower-triangle entry names its two atoms, in either order |
| IntCoorBonds.Attach | mpqc/src/lib/chemistry/molecule/coor.cc:907-918 | the joining loop adds exactly those bonds |
| IntCoorBonds.AttachKeeps | mpqc/src/lib/chemistry/molecule/coor.cc:907-918 | after joining, boundatoms plus nearest_unbound are all reached from atom 0 and only bonds to nearest_unbound leave boundatoms |
| IntCoorBonds.FindBonds | mpqc/src/lib/chemistry/molecule/coor.cc:824-921 | find_bonds fails (aborts) exactly for a molecule with no atoms; it keeps every close contact, and otherwise leaves every atom connected to atom 0; a molecule already connected by its contacts gets no other bonds |
| BasisFiles.Lower | mpqc/src/lib/chemistry/qc/basis/files.cc:87-88 | tolower turns an upper-case ASCII letter into the lower-case letter 32 code points above it |
| BasisFiles.MangleClean | mpqc/src/lib/chemistry/qc/basis/files.cc:86-110 | the file name has the basis name's length, contains none of , space + * ( ), and its only upper-case letters are the P, S, L, R that stand for + * ( ) |
| BasisFiles.Fold | mpqc/src/lib/chemistry/qc/basis/files.cc:86-108 | the class a character falls into: upper-case letters fold to lower case, comma and space to one class |
| BasisFiles.MangleCharFold | mpqc/src/lib/chemistry/qc/basis/files.cc:86-108 | two basis-name characters give the same file-name character exactly when they fold alike |
| BasisFiles.SpellInjective | mpqc/src/lib/chemistry/qc/basis/files.cc:94-107 | the spelling of +, *, (, ) and every other non-upper-case character is one for one |
| BasisFiles.MangleCollision | mpqc/src/lib/chemistry/qc/basis/files.cc:86-110 | two basis names share a file name exactly when they have the same length and fold alike position by position (case and comma versus space are lost) |
| BasisFiles.MangleName | mpqc/src/lib/chemistry/qc/basis/files.cc:84-110 | the character loop builds exactly that file name |
| BasisFiles.BasisPath | mpqc/src/lib/chemistry/qc/basis/files.cc:119-123 | the path tried is the directory, a slash, the file name and ".kv" |
| BasisFiles.SearchFinds | mpqc/src/lib/chemistry/qc/basis/files.cc:115-167 | the search takes the first directory that is set and holds a readable file, and keeps the given keyval exactly when no set directory does |
| BasisFiles.FirstDirectoryWins | mpqc/src/lib/chemistry/qc/basis/files.cc:116-144 | a readable file under basisdir is used before the library directory is looked at |
| BasisFiles.LibraryDir | mpqc/src/lib/chemistry/qc/basis/files.cc:45-62 | the library directory always ends in "/basis" |
| BasisFiles.AfterEquals | mpqc/src/lib/chemistry/qc/basis/files.cc:47-49 | SCLIBDIR's value is taken after its first '=', or whole when it has none |
| BasisFiles.BasisFileSet.constructor | mpqc/src/lib/chemistry/qc/basis/files.cc:39-63 | the set starts with basisdir and the library directory, and no basis set recorded |
| BasisFiles.BasisFileSet.Keyval | mpqc/src/lib/chemistry/qc/basis/files.cc:74-181 | keyval(): a name met before returns the given keyval and records nothing; a new name is searched under its file name and then recorded at the end |
| BasisFiles.Recorded | mpqc/src/lib/chemistry/qc/basis/files.cc:80-82 | the scan finds the name exactly when it was recorded |
| BasisFiles.FindFile | mpqc/src/lib/chemistry/qc/basis/files.cc:115-167 | the directory loop gives the search's result |
| BasisFiles.LookupTwice | mpqc/src/lib/chemistry/qc/basis/files.cc:74-181 | a second lookup of the same name is answered with the given keyval, and the name stays recorded |
| KeyValAssigned.Lookup | mpqc/src/lib/util/keyval/keyvalass.cc:55-67 | the value bound to a keyword, the null reference when it is absent |
| KeyValAssigned.LookupAfterAssign | mpqc/src/lib/util/keyval/keyvalass.cc:69-74 | after assign, the keyword yields the new value and every other keyword what it yielded before |
| KeyValAssigned.AssignedKeyVal.constructor | mpqc/src/lib/util/keyval/keyvalass.cc:31-34 | a new keyval holds no keywords and no error |
| KeyValAssigned.AssignedKeyVal.KeyExists | mpqc/src/lib/util/keyval/keyvalass.cc:41-53 | key_exists holds exactly when the keyword is bound; the error becomes UnknownKeyword or OK accordingly; the map is unchanged |
| KeyValAssigned.AssignedKeyVal.KeyValue | mpqc/src/lib/util/keyval/keyvalass.cc:55-67 | key_value returns the bound value or the null reference, with the error set to OK or UnknownKeyword; the map is unchanged |
| KeyValAssigned.AssignedKeyVal.Assign | mpqc/src/lib/util/keyval/keyvalass.cc:69-74 | assign binds the keyword to the value, replacing any earlier one, and leaves the others |
| KeyValAssigned.AssignedKeyVal.AssignDouble | mpqc/src/lib/util/keyval/keyvalass.cc:75-79 | assign(double) binds a double value |
| KeyValAssigned.AssignedKeyVal.AssignBoolean | mpqc/src/lib/util/keyval/keyvalass.cc:80-84 | assignboolean binds a boolean value |
| KeyValAssigned.AssignedKeyVal.AssignFloat | mpqc/src/lib/util/keyval/keyvalass.cc:85-89 | assign(float) binds a float value |
| KeyValAssigned.AssignedKeyVal.AssignChar | mpqc/src/lib/util/keyval/keyvalass.cc:91-95 | assign(char) binds a char value |
| KeyValAssigned.AssignedKeyVal.AssignInt | mpqc/src/lib/util/keyval/keyvalass.cc:96-100 | assign(int) binds an int value |
| KeyValAssigned.AssignedKeyVal.AssignPChar | mpqc/src/lib/util/keyval/keyvalass.cc:101-105 | assign(const char*) binds a string value |
| KeyValAssigned.AssignedKeyVal.AssignDescribed | mpqc/src/lib/util/keyval/keyvalass.cc:106-110 | assign(object) binds an object value |
| KeyValAssigned.AssignedKeyVal.Clear | mpqc/src/lib/util/keyval/keyvalass.cc:112-116 | clear forgets every keyword |
| KeyValAssigned.AssignThenQuery | mpqc/src/lib/util/keyval/keyvalass.cc:55-100 | a double just assigned is read back, and an unassigned keyword gives the null reference and UnknownKeyword |
| Container.Vector.constructor | mpqc/src/lib/chemistry/qc/mbptr12/container.h:44-45 | the container starts with the elements it is given |
| Container.Vector.PushBack | mpqc/src/lib/chemistry/qc/mbptr12/container.h:49 | push_back appends one element |
| Container.FirstZeroFrom | mpqc/src/lib/chemistry/qc/mbptr12/container.h:48 | the first call from i on that returns zero, when one does |
| Container.FirstZero | mpqc/src/lib/chemistry/qc/mbptr12/container.h:48 | the number of calls before the first zero: every earlier call returned non-zero |
| Container.ProducedFacts | mpqc/src/lib/chemistry/qc/mbptr12/container.h:47-50 | the elements taken are the creator's results up to the first zero, in order, and none of them is zero |
| Container.FillContainer | mpqc/src/lib/chemistry/qc/mbptr12/container.h:44-51 | fill_container appends exactly those elements to what the container held |
| ScfInput.PChar | mpqc/src/lib/chemistry/qc/dmtscf/scf_kinp.cc:128-129 | a string lookup succeeds exactly when the keyword has a string value |
| ScfInput.IntValue | mpqc/src/lib/chemistry/qc/dmtscf/scf_kinp.cc:141-142 | an integer lookup succeeds exactly when the keyword has an integer value |
| ScfInput.ShellFlagsOf | mpqc/src/lib/chemistry/qc/dmtscf/scf_kinp.cc:131-163 | exactly one of hsos, singlet, special, twocon, uhf is set for an open type, none for "none" |
| ScfInput.DimsOf | mpqc/src/lib/chemistry/qc/dmtscf/scf_kinp.cc:442-461 | nbfao, nbfso and nsomax are the number of basis functions n; nbatri, nbstri and mxcoef2 are the triangle size n(n+1)/2; mxcoef is n squared |
| ScfInput.PairProductEven | mpqc/src/lib/chemistry/qc/dmtscf/scf_kinp.cc:443 | n(n+1)/2 is exact |
| ScfInput.TruncToInt | mpqc/src/lib/chemistry/qc/dmtscf/scf_kinp.cc:404 | the C cast to int drops less than one, and keeps a non-negative value non-negative |
| ScfInput.ClosedShellCount | mpqc/src/lib/chemistry/qc/dmtscf/scf_kinp.cc:403-410 | a closed-shell count is accepted only when twice it is within 1e-5 of the electron count |
| ScfInput.ClosedShellPairs | mpqc/src/lib/chemistry/qc/dmtscf/scf_kinp.cc:403-410 | with a whole number e of electrons the count is accepted exactly when e is even, and is then e/2 |
| ScfInput.ReadOpenType | mpqc/src/lib/chemistry/qc/dmtscf/scf_kinp.cc:128-165 | the opentype reading fails exactly on an unrecognised opentype or an open-shell type without socc; otherwise it sets the shell flags, iopen and nopen (socc for the open-shell types, else 0) and nothing else |
| ScfInput.NuclearCharge | mpqc/src/lib/chemistry/qc/dmtscf/scf_kinp.cc:392-394 | the nuclear charge is the sum of the centres' charges |
| ScfInput.ReadConvergence | mpqc/src/lib/chemistry/qc/dmtscf/scf_kinp.cc:193-207 | convergence is the given value, or the default from wfn and dertype |
| ScfInput.ConvergenceDefault | mpqc/src/lib/chemistry/qc/dmtscf/scf_kinp.cc:199-207 | with no convergence given, it is 12 exactly for second derivatives, 10 exactly for other non-scf wavefunctions, and 7 otherwise |
| ScfInput.ReadDiisDamp | mpqc/src/lib/chemistry/qc/dmtscf/scf_kinp.cc:377-381 | diisdamp is the given value, or 0.01 for two-configuration, 0.02 for other open shells, 0 for closed shells |
| ScfInput.ReadSettings | mpqc/src/lib/chemistry/qc/dmtscf/scf_kinp.cc:172-386 | the checkpoint files, the option flags, the iteration controls, the damping and int_store1/2 are read with their defaults, and nothing else changes |
| ScfInput.ReadOccupation | mpqc/src/lib/chemistry/qc/dmtscf/scf_kinp.cc:396-410 | the occupation reading fails exactly when docc is missing for a closed shell and the charge does not give whole pairs; otherwise it records nclosed |
| ScfInput.ReadIterationSetup | mpqc/src/lib/chemistry/qc/dmtscf/scf_kinp.cc:417-461 | diis (default on), diisstart, the open-shell alpha and beta, and the sizes from the number of basis functions |
| ScfInput.InitScfStruct | mpqc/src/lib/chemistry/qc/dmtscf/scf_kinp.cc:113-468 | scf_init_scf_struct returns 0 or -1; 0 exactly when the input configures a record, and then the record is that configuration |
| ScfInput.OpenTypeFlags | mpqc/src/lib/chemistry/qc/dmtscf/scf_kinp.cc:128-163 | in a configured record iopen is set exactly for highspin, singlet, twocon and special, each shell flag exactly for its own type, and "none" leaves every flag clear |
| ScfInput.OpenTypeErrors | mpqc/src/lib/chemistry/qc/dmtscf/scf_kinp.cc:141-162 | an unrecognised opentype, or an open-shell type without socc, configures nothing |
| ScfInput.ShellDefaults | mpqc/src/lib/chemistry/qc/dmtscf/scf_kinp.cc:361-437 | the defaults: ndiis 4 open or 6 closed, diisdamp 0.01, 0.02 or 0, levelshift 1 open or 0 closed, and for an open shell beta 1 (the default -1, negated) |
| ScfInput.StateOut.constructor | mpqc/src/lib/chemistry/qc/dmtscf/scf_kinp.cc:662-663 | a new stream holds no items |
| ScfInput.StateOut.PutInt | mpqc/src/lib/chemistry/qc/dmtscf/scf_kinp.cc:664 | so.put(int) appends an integer item |
| ScfInput.StateOut.PutReal | mpqc/src/lib/chemistry/qc/dmtscf/scf_kinp.cc:698 | so.put(double) appends a real item |
| ScfInput.StateOut.PutString | mpqc/src/lib/chemistry/qc/dmtscf/scf_kinp.cc:684 | so.putstring appends a string item |
| ScfInput.StateIn.constructor | mpqc/src/lib/chemistry/qc/dmtscf/scf_kinp.cc:724-725 | a reader starts at the first item of its stream |
| ScfInput.StateIn.GetInt | mpqc/src/lib/chemistry/qc/dmtscf/scf_kinp.cc:726 | si.get(int) takes the next item, which must be an integer, and advances by one |
| ScfInput.StateIn.GetReal | mpqc/src/lib/chemistry/qc/dmtscf/scf_kinp.cc:769 | si.get(double) takes the next item, which must be a real, and advances by one |
| ScfInput.StateIn.GetString | mpqc/src/lib/chemistry/qc/dmtscf/scf_kinp.cc:746-750 | si.getstring takes the next item, which must be a string, and advances by one |
| ScfInput.Record | mpqc/src/lib/chemistry/qc/dmtscf/scf_kinp.cc:662-721 | put_scf_struct writes 50 items |
| ScfInput.PutShell | mpqc/src/lib/chemistry/qc/dmtscf/scf_kinp.cc:664-668 | the shell flags, in order |
| ScfInput.PutOptions | mpqc/src/lib/chemistry/qc/dmtscf/scf_kinp.cc:669-682 | the fourteen option flags, in order |
| ScfInput.PutOptionsHead | mpqc/src/lib/chemistry/qc/dmtscf/scf_kinp.cc:669-675 | use_symmetry to local_p |
| ScfInput.PutOptionsTail | mpqc/src/lib/chemistry/qc/dmtscf/scf_kinp.cc:676-682 | eliminate to debug_node |
| ScfInput.PutFiles | mpqc/src/lib/chemistry/qc/dmtscf/scf_kinp.cc:684-685 | ckptdir then fname |
| ScfInput.PutControls | mpqc/src/lib/chemistry/qc/dmtscf/scf_kinp.cc:687-696 | ckpt_freq to print_flg, in order |
| ScfInput.PutDamping | mpqc/src/lib/chemistry/qc/dmtscf/scf_kinp.cc:698-699 | diisdamp then lvl_shift |
| ScfInput.PutStatus | mpqc/src/lib/chemistry/qc/dmtscf/scf_kinp.cc:701-702 | iopen then converged |
| ScfInput.PutDims | mpqc/src/lib/chemistry/qc/dmtscf/scf_kinp.cc:704-710 | nbfao to mxcoef2, in order |
| ScfInput.PutOccupation | mpqc/src/lib/chemistry/qc/dmtscf/scf_kinp.cc:711-712 | nclosed then nopen |
| ScfInput.PutEnergies | mpqc/src/lib/chemistry/qc/dmtscf/scf_kinp.cc:714-717 | nuc_rep, e_elec, diis_er, e_exc |
| ScfInput.PutWeights | mpqc/src/lib/chemistry/qc/dmtscf/scf_kinp.cc:719-720 | alpha then beta |
| ScfInput.PutScfStruct | mpqc/src/lib/chemistry/qc/dmtscf/scf_kinp.cc:661-721 | put_scf_struct appends exactly the record's items, block by block |
| ScfInput.GetShell | mpqc/src/lib/chemistry/qc/dmtscf/scf_kinp.cc:726-730 | reads the five shell flags |
| ScfInput.GetOptions | mpqc/src/lib/chemistry/qc/dmtscf/scf_kinp.cc:731-744 | reads the fourteen option flags |
| ScfInput.GetFiles | mpqc/src/lib/chemistry/qc/dmtscf/scf_kinp.cc:746-756 | reads ckptdir and fname |
| ScfInput.GetControls | mpqc/src/lib/chemistry/qc/dmtscf/scf_kinp.cc:758-767 | reads the ten controls |
| ScfInput.GetDamping | mpqc/src/lib/chemistry/qc/dmtscf/scf_kinp.cc:769-770 | reads diisdamp and lvl_shift |
| ScfInput.GetStatus | mpqc/src/lib/chemistry/qc/dmtscf/scf_kinp.cc:772-773 | reads iopen and converged |
| ScfInput.GetDims | mpqc/src/lib/chemistry/qc/dmtscf/scf_kinp.cc:775-781 | reads the seven sizes |
| ScfInput.GetOccupation | mpqc/src/lib/chemistry/qc/dmtscf/scf_kinp.cc:782-783 | reads nclosed and nopen |
| ScfInput.GetEnergies | mpqc/src/lib/chemistry/qc/dmtscf/scf_kinp.cc:785-788 | reads the four energies |
| ScfInput.GetWeights | mpqc/src/lib/chemistry/qc/dmtscf/scf_kinp.cc:790-791 | reads alpha and beta |
| ScfInput.GetScfStruct | mpqc/src/lib/chemistry/qc/dmtscf/scf_kinp.cc:723-792 | get_scf_struct consumes 50 items and replaces every streamed field by what it reads, keeping the rest |
| ScfInput.PutThenGet | mpqc/src/lib/chemistry/qc/dmtscf/scf_kinp.cc:661-792 | what put_scf_struct writes, get_scf_struct reads back in full: every streamed field comes back, and only int_store1/2, which are not streamed, stay the reader's |
| Cadf.DefaultIteration | src/lib/chemistry/qc/scf/cadf/cadfclhf.h:167-217 | a default iteration has every counter 0, no samples and is not the first |
| Cadf.MoveIteration | src/lib/chemistry/qc/scf/cadf/cadfclhf.h:169-188 | the move constructor carries over every counter, every sample list, the parent and is_first: the moved-to iteration equals the moved-from one |
| Cadf.Relocated | src/lib/chemistry/qc/scf/cadf/cadfclhf.h:226-234 | moving the iterations into a grown vector keeps each of them as it was |
| Cadf.ScreeningStatistics.constructor | src/lib/chemistry/qc/scf/cadf/cadfclhf.h:221-231 | new statistics have no iterations, print level 0, zero pair counts and no saved statistics |
| Cadf.ScreeningStatistics.NextIteration | src/lib/chemistry/qc/scf/cadf/cadfclhf.h:233-238 | next_iteration appends one default iteration whose parent is these statistics and which is first exactly when it is the only one, returns it, keeps the earlier iterations and the other fields, and keeps the invariant that only iteration 0 is first |
| Cadf.IsMaster | src/lib/chemistry/qc/scf/cadf/cadfclhf.h:317-325 | only rank 0 can be master, and only under dynamic load balancing |
| Cadf.OneMaster | src/lib/chemistry/qc/scf/cadf/cadfclhf.h:317-330 | at most one process is master; rank 0 is master exactly when load balancing is dynamic; with the default static balancing no process is |
| Cadf.Sizes | src/lib/chemistry/qc/scf/cadf/cadfclhf.h:643-661 | the function counts of a block's shells, shell by shell |
| Cadf.ShellStart | src/lib/chemistry/qc/scf/cadf/cadfclhf.h:697-701 | in a contiguous block a shell's bfoff lies past the block's bfoff by the function counts of the shells before it, so the two ways of placing a shell (running offset, bfoff difference) agree |
| Cadf.CopyTile | src/lib/chemistry/qc/scf/cadf/cadfclhf.h:655 | a block assignment of Eigen writes the tile and leaves every other element |
| Cadf.PairTile | src/lib/chemistry/qc/scf/cadf/cadfclhf.h:650-658 | the tile of shells I and J lies inside the block matrix and holds their shell integrals |
| Cadf.PrefixBound | src/lib/chemistry/qc/scf/cadf/cadfclhf.h:650-658 | the running offset plus a shell's size stays inside the block |
| Cadf.IntsToEigenPair | src/lib/chemistry/qc/scf/cadf/cadfclhf.h:641-661 | the (iblk, jblk) matrix is iblk.nbf by jblk.nbf, and each element is the integral of the shells holding its row and column functions |
| Cadf.RowSplit | src/lib/chemistry/qc/scf/cadf/cadfclhf.h:741-765 | a row of an (i, j) pair index splits into its i function and j function |
| Cadf.ShiftRows | src/lib/chemistry/qc/scf/cadf/cadfclhf.h:741-765 | a row offset by whole shell pairs keeps its j function |
| Cadf.RowsFit | src/lib/chemistry/qc/scf/cadf/cadfclhf.h:741-742 | a shell's rows, scaled by jsh.nbf, fit in the block's |
| Cadf.XTile | src/lib/chemistry/qc/scf/cadf/cadfclhf.h:717-720 | the columns of shell X, from its offset in Xblk on, hold that shell's integrals |
| Cadf.TripleRows | src/lib/chemistry/qc/scf/cadf/cadfclhf.h:737-745 | the rows of shell I, from its offset times jsh.nbf on, hold that shell triple's integrals, and the next shell starts where they end |
| Cadf.TripleRow | src/lib/chemistry/qc/scf/cadf/cadfclhf.h:737-745 | a row inside shell I's rows belongs to a function of shell I |
| Cadf.PlaceShellRows | src/lib/chemistry/qc/scf/cadf/cadfclhf.h:737-745 | the Xsh loop for one shell of iblk fills its rows and leaves all others |
| Cadf.IntsToEigenShellShellBlock | src/lib/chemistry/qc/scf/cadf/cadfclhf.h:705-722 | the (ish, jsh, Xblk) matrix is ish.nbf·jsh.nbf by Xblk.nbf and each column holds the integrals of the shell of Xblk it belongs to |
| Cadf.IntsToEigenBlockShellBlock | src/lib/chemistry/qc/scf/cadf/cadfclhf.h:724-747 | the (iblk, jsh, Xblk) matrix is iblk.nbf·jsh.nbf by Xblk.nbf and each element is the integral of its row's iblk function and jsh function and its column's Xblk function |
| Cadf.RowIndex | src/lib/chemistry/qc/scf/cadf/cadfclhf.h:790 | the row mu·jblk.nbf + c of an (ish, jblk) pair lies inside the matrix |
| Cadf.RowIndexInjective | src/lib/chemistry/qc/scf/cadf/cadfclhf.h:786-795 | distinct (mu, c) pairs land on distinct rows |
| Cadf.RowIndexOnto | src/lib/chemistry/qc/scf/cadf/cadfclhf.h:786-795 | every row is the row of some (mu, c) pair |
| Cadf.TileRows | src/lib/chemistry/qc/scf/cadf/cadfclhf.h:788-793 | one function mu of ish and one shell of jblk cover exactly their run of rows |
| Cadf.ColumnTile | src/lib/chemistry/qc/scf/cadf/cadfclhf.h:787-792 | rows of shell J in that run hold the shell integrals at row mu·jsh.nbf plus the function of J |
| Cadf.PlaceFunctionRows | src/lib/chemistry/qc/scf/cadf/cadfclhf.h:786-794 | the body for one shell of jblk writes the rows of its functions, for every mu, and leaves all others |
| Cadf.PlaceFunctionRow | src/lib/chemistry/qc/scf/cadf/cadfclhf.h:789-792 | the block assignment for one function mu writes exactly the rows of mu with the functions of that shell, from that shell's matrix, and leaves every other row |
| Cadf.IntsToEigenShellBlockShell | src/lib/chemistry/qc/scf/cadf/cadfclhf.h:773-797 | the (ish, jblk, Xsh) matrix is ish.nbf·jblk.nbf by Xsh.nbf and row mu·jblk.nbf + c holds the integral of function mu of ish and function c of jblk |
| Cadf.Single | src/lib/chemistry/qc/scf/cadf/cadfclhf.h:693 | one shell as a block: contiguous, with that shell's size |
| Cadf.IntsToEigenBlockShell | src/lib/chemistry/qc/scf/cadf/cadfclhf.h:689-703 | the (iblk, jsh) matrix is iblk.nbf by jsh.nbf and each element is the integral of the iblk shell holding its row function and jsh |
| Cadf.IntsToEigenBlockShellShell | src/lib/chemistry/qc/scf/cadf/cadfclhf.h:749-771 | the (iblk, jsh, Xsh) matrix is iblk.nbf·jsh.nbf by Xsh.nbf and each element is the integral of its row's iblk function and jsh function and Xsh's column function |

## Left out

**Foreign code and the environment.** These become parameters.
- Integral evaluation is not modelled: shell sizes, the petite-list tests `in_p1`/`in_p2`/`in_p4`, `log2_shell_bound`, the integral buffers and the shell-level `ints_to_eigen` are oracles.
- Message passing is not modelled. `MessageGrp::sum` in `accum_remote` becomes the other processes' arenas, given as a parameter. The broadcasts of `files.cc` are left out: every process finds the same file.
- Threads are not modelled. `ThreadGrp::start_threads`/`wait_threads` become what each thread adds to its contribution, a parameter of `FockBuild.FockBuild.Build`. Locks, `done_threads`, the destructors and `set_nthread` are left out, and so are the threaded `ints_to_eigen` and `do_threaded`.
- File and stream I/O are not modelled:
  - opening and parsing basis files (a found file is the tag `AggregateWith(path)`);
  - `StateIn`/`StateOut` other than the item order;
  - all printing, warnings and `scf_print_options`.
- `fockbuild.h` is not part of this model. `nblock()` is taken as nI(nI+1)/2 blocks for a symmetric matrix and nI·nJ for a rectangular one, and `offset(I, J)` as the usual row-major prefix of those blocks.
- The `can_sym_offset`/`gen_sym_offset` macros are not part of this model. They are taken as i(i+1)/2 + j, with the larger index first.
- `FockContribution::clone()` is not part of this model. A clone is taken to be a copy whose count is cleared.
- KeyVal, `ParsedKeyVal` and `AggregateKeyVal` are not part of this model. A keyval is a set of typed maps, one per value type. A missing `intvalue` is taken to return 0.
- `GaussianBasisSet::equiv` is an oracle, and so is `IntCoor::equivalent` for simple coordinates.

**Numerics.**
- Floating point is real arithmetic.
- `log` and `ceil` in `pmax_contrib` are the exponent oracle `expo`; the screening threshold `tol`, which `F11_P11::run` computes as `(int)(log(accuracy_)/log(2.0))` (fockbuild.cc:638), is a parameter `Screen.tol` of the model.
- DBL_EPSILON is the constant 2^-52.
- Atom distances and atomic radii are given as parameters, and so are coordinate values (`IntCoor::value`).
- C `int` overflow is not modelled: integers are unbounded. The `uint64` screening counters of CADF are `nat`.
- These are left out because they are floating-point routines: `SumIntCoor::normalize`, `force_constant`, `update_value`'s own loop, `bmat`, and `cos_ijk` with `add_bends`/`add_tors`. The model states what `update_value` totals (the value lemmas) but does not run it.
- `init_scf_struct` (scf_kinp.cc:122) is not part of this model: it is assumed to zero every field of the record, with the string fields taken as "" (`ScfInput.Cleared`), so every field `scf_init_scf_struct` never writes keeps that value.
- These SCF routines are left out: densities, energies, effective Fock and Lagrangian matrices, and the point-charge energies of `scf_init_scf_struct` (scf_kinp.cc:233-284).

**Aliasing and storage.**
- Arenas are values:
  - `make_reference`, and `kmats_[i] = jmats_[i]` when `k_is_j`, do not share storage in the model;
  - an `SCMatrix` bound to a `FockBuildMatrix` is held by value inside it, so `data_to_scmat` updates that copy.
- FockMatrix.FockBuildMatrix.Accum: the source and destination are separate objects; accumulating a matrix into itself is not modelled.
- FockContribution.GenericFockContribution.Accum: requires a contribution whose matrices share nothing with this one; self-accumulation is not modelled.
- FockBuild.FockBuild.Build:
  - contributions are values (arena and `nint`), so the per-matrix merge and `update()` are not repeated here; they are modelled by `GenericFockContribution.Accum` and `Update`;
  - the screening table is a parameter rather than the result of `compute_pmax`, and its `delete[]` is not modelled.
- FockBuild.FockBuildThread.constructor: `storage_unused()` is one value given for both integral objects of the general thread kind.
- SumIntCoor terms are values, so a coordinate shared between sums is not modelled.
- The bond bit array `BitArrayLTri` is a set of lower-triangle pairs.
- Eigen matrices are two-dimensional arrays; storage order is not modelled.

**Contracts that stop short of the source.**
- IntCoor.SetIntCoor.Pop: requires a non-empty set, because `pop_back` on an empty vector is undefined behaviour.
- IntCoor.SetIntCoor.CoorAt: states only that the result is one of the held coordinates.
- IntCoor.SetIntCoor.AddSet: models the intended behaviour of `add(set)` (see Findings); the loop as written is `IntCoor.SelfAdd`.
- ScfInput.StateIn.GetInt: requires an integer item next; reading an item of another kind is not modelled. The same holds for `GetReal` and `GetString`.
- ScfInput.InitScfStruct: on failure (-1) the returned record is unspecified. The source returns a partly filled struct.
- ClSCF.CLSCF.SetOccupations: when no eigenvalue is below the sentinel, the source reads an uninitialised irrep index. The model reports failure instead. The same holds for `TcSCF.TCSCF.SetOccupations`.
- IntCoorBonds.FindBonds: a molecule without atoms gives `ok == false` where the source calls `abort()`.
- Cadf.IntsToEigenBlockShell: requires a contiguous block, with each shell's `bfoff` at the block's `bfoff` plus the sizes before it, because it places shells by `bfoff` differences. The same holds for `IntsToEigenShellShellBlock` and `IntsToEigenBlockShellBlock`.
- FockContribution.GenericFockContribution.SetFmatSym: requires a basis with at least one shell; the same holds for the other symmetric setters.
- TcSCF.Create: the failing branches (one irrep, a third open shell) return no object where the source aborts.

**Not modelled at all.**
- `use_symmetry` is the constant 0, as the source sets it.
- `IntCoorGen::generate`, `nearest_contact`, `add_bends` and `add_tors` are not modelled; only the named helpers are.
- `ScreeningStatistics::print_summary` and the CADF caches are not modelled.
- `scf_make_old_centers` and `int_initialize_1e`/`int_initialize_offsets1`, which set the number of basis functions, are not modelled. That number is a parameter.

## Findings

| source | as written | input that shows it | evidently intended | confidence | as-written member | corrected member |
|---|---|---|---|---|---|---|
| mpqc/src/lib/chemistry/molecule/coor.cc:275-281 | `add(set)` tests `i < coor->n()` again on every round, and `n()` grows when the set is its own argument | `s->add(s)` for any non-empty set `s` | append the set's coordinates as they were on entry, doubling a set added to itself | not executed | IntCoor.SelfAddNeverStops | IntCoor.SetIntCoor.AddSet |
