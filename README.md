# engine core, modelled in Dafny

A model of several self-contained pieces of the voxel engine and game server:

- **Paged voxel volume and sampler.** A sparse 3D grid is split into cubic
  chunks of side 64. The pager fills a chunk the first time it is touched.
  A sampler cursor reads the voxel at its position and around it
  (`paged_volume.dfy`). The test fixture and its cases are in
  `poly_vox_test.dfy`.
- **Range algorithms.** In-place sort over an index range, `next`/`distance`,
  and sorted difference, intersection and union into a bounded output
  buffer (`algorithm.dfy`). The cases of the algorithm tests are in
  `algorithm_test.dfy`.
- **Aggro manager.** A list of (character id, aggro) entries with a dirty
  flag: add-or-accumulate, lazy sorting, the highest entry, decay and the
  removal of exhausted entries (`aggro_mgr.dfy`).
- **Voxel format dispatch.** Choosing an importer from a file's extension
  and magic word, the exporter with its fallback to Qubicle, and clearing
  the volume list (`volume_format.dfy`).
- **Lua generator host side.** Reading a script's parameter table into
  parameter descriptions, pushing the arguments of `main`, the voxel and
  region queries, and the order of checks in `exec` (`lua_generator.dfy`).
- **Persistence model.** Field lookup, the primary-key check, result
  checking, the row-count gate of filling a model, the transaction
  statements and the scoped transaction guard (`persistence_model.dfy`).
- **L-system turtle.** `expand` moves a cursor by X/Y/Z and x/y/z, saves
  and restores it with brackets, and expands production rules for a
  number of generations (`lsystem.dfy`). The test cases are in
  `lsystem_test.dfy`.
- **Language string table.** Additive load, clear, and lookup with a
  placeholder fallback (`tb_language.dfy`).

`voxel.dfy` holds the voxel value, the lattice point and the region box
that the modules share. `wrappers.dfy` holds `Option`.

Several of these components are known only through their tests, or
through the doc comments of their header. For those, the model is the
behaviour the tests pin down:

- The volume, the sampler and the pager come from `PolyVoxTest.cpp`.
- The range algorithms come from `AlgorithmTest.cpp`.
- The turtle comes from `LSystemGeneratorTest.cpp`.
- The string table comes from `tb_language.h`.

Each test becomes a method. Its `ensures` clause states the test's
assertions as proved facts about the model.

Choices where the source leaves room:

- **Sorting.** `core::sort` is modelled as an insertion sort, generic in a
  strict weak order.
- **Set operations.** The sorted set operations are merge loops over
  strictly ascending inputs. They stop when the output buffer is full.
- **Rule expansion.** A symbol with a production rule expands its rule
  with one generation less, then takes its own step. A string is
  interpreted only while generations remain. The tests do not decide
  between this order and step-then-rule: in the multiple-states test `A`
  does not move, so both end at y = 12.
- **Language files.** A file is the list of id/string pairs it holds. A
  later pair for an id wins over an earlier one.
- **Voxels.** `createVoxel(n)` in the tests gives material n and colour 0.

Where the parameter type is shown, the model follows the code
(`LUAParameterType::Max` is the "no type yet" marker). Where an integer
width does not matter, integers are unbounded. Aggro values are reals.

## Model

| member | source | states |
|---|---|---|
| Voxel.CreateVoxel | src/modules/voxel/tests/PolyVoxTest.cpp:14 | the voxel has the given material, and it is Air exactly when the material is Air's |
| Voxel.Region.Centre | src/modules/voxel/tests/PolyVoxTest.cpp:57-59 | the centre of a valid region lies inside it |
| PagedVolume.SplitIsUnique | src/modules/voxel/tests/PolyVoxTest.cpp:49 | a coordinate splits into a chunk coordinate and a local coordinate in [0, side) in exactly one way (floor division) |
| PagedVolume.NegativeCoordinates | src/modules/voxel/tests/PolyVoxTest.cpp:103-107 | with side 64, -1 lies in chunk -1 at local 63, and the origin lies in chunk 0 at local 0 |
| PagedVolume.ChunkRegion | src/modules/voxel/tests/PolyVoxTest.cpp:13 | the region handed to the pager is valid and holds exactly the points of that chunk |
| PagedVolume.Chunk.constructor | src/modules/voxel/tests/PolyVoxTest.cpp:13-36 | a new chunk holds Air everywhere |
| PagedVolume.Chunk.SetVoxel | src/modules/voxel/tests/PolyVoxTest.cpp:14-34 | the voxel at (x, y, z) is replaced and every other voxel keeps its value |
| PagedVolume.PagerFill | src/modules/voxel/tests/PolyVoxTest.cpp:13-36 | a local coordinate is Air exactly when it lies outside the two 3x3 layers and is not (1, 2, 1) |
| PagedVolume.Chunk.GetVoxel | src/modules/voxel/tests/PolyVoxTest.cpp:64-66 | a chunk's voxel read at a local coordinate is what the pager wrote there, once the chunk is paged in |
| PagedVolume.PageOut | src/modules/voxel/tests/PolyVoxTest.cpp:38-39 | pageOut changes no voxel of the chunk |
| PagedVolume.PageIn | src/modules/voxel/tests/PolyVoxTest.cpp:13-36 | pageIn succeeds and the chunk then holds exactly the pattern: 1 + x + 3z on layer 0, 11 + x + 3z on layer 1, 25 at (1, 2, 1), Air elsewhere |
| PagedVolume.WriteLayer | src/modules/voxel/tests/PolyVoxTest.cpp:16-34 | the nine writes of one layer store base + x + 3z and change nothing else |
| PagedVolume.Volume.constructor | src/modules/voxel/tests/PolyVoxTest.cpp:48-50 | a new volume of the given side has no resident chunk |
| PagedVolume.Volume.GetChunk | src/modules/voxel/tests/PolyVoxTest.cpp:53-60 | getChunk takes a voxel position and returns the resident chunk that contains it, if there is one. Otherwise it returns a fresh chunk that the pager filled and that is now resident. Either way the chunk holds the pager's pattern |
| PagedVolume.Volume.GetVoxel | src/modules/voxel/tests/PolyVoxTest.cpp:64-67 | the voxel at p is the pattern at p's local coordinate, and p's chunk is now resident. Every chunk that was resident stays, as the same chunk |
| PagedVolume.Volume.FlushAll | src/modules/voxel/tests/PolyVoxTest.cpp:54 | flushAll empties the resident chunks |
| PagedVolume.Sampler.constructor | src/modules/voxel/tests/PolyVoxTest.cpp:63-68 | a sampler reads the given volume, with its cursor at the origin |
| PagedVolume.Sampler.SetPosition | src/modules/voxel/tests/PolyVoxTest.cpp:68 | the cursor is the given point |
| PagedVolume.Sampler.MovePositiveX | src/modules/voxel/tests/PolyVoxTest.cpp:78-79 | the cursor moves one voxel up x, so afterwards it is where setPosition to that point would put it |
| PagedVolume.Sampler.MovePositiveY | src/modules/voxel/tests/PolyVoxTest.cpp:78-79 | the cursor moves one voxel up y |
| PagedVolume.Sampler.MovePositiveZ | src/modules/voxel/tests/PolyVoxTest.cpp:78-79 | the cursor moves one voxel up z |
| PagedVolume.Sampler.MoveNegativeX | src/modules/voxel/tests/PolyVoxTest.cpp:78-79 | the cursor moves one voxel down x |
| PagedVolume.Sampler.MoveNegativeY | src/modules/voxel/tests/PolyVoxTest.cpp:78-79 | the cursor moves one voxel down y |
| PagedVolume.Sampler.MoveNegativeZ | src/modules/voxel/tests/PolyVoxTest.cpp:78-79 | the cursor moves one voxel down z |
| PagedVolume.Sampler.GetVoxel | src/modules/voxel/tests/PolyVoxTest.cpp:69-72 | the sampler reads what the volume holds at the cursor, and the cursor does not move. The chunk holding the voxel read becomes resident, and every other chunk stays as resident as it was |
| PagedVolume.Sampler.PeekVoxel | src/modules/voxel/tests/PolyVoxTest.cpp:120-148 | a peek at offset d reads what the volume holds at cursor + d, and the cursor does not move. The chunk holding the voxel read becomes resident, and every other chunk stays as resident as it was |
| PagedVolume.Sampler.PeekVoxel1nx1ny1nz | src/modules/voxel/tests/PolyVoxTest.cpp:145 | reads what the volume holds at cursor + (-1, -1, -1), and the cursor does not move. The chunk holding the voxel read becomes resident, and every other chunk stays as resident as it was |
| PagedVolume.Sampler.PeekVoxel1nx1ny0pz | src/modules/voxel/tests/PolyVoxTest.cpp:141 | reads what the volume holds at cursor + (-1, -1, 0), and the cursor does not move. The chunk holding the voxel read becomes resident, and every other chunk stays as resident as it was |
| PagedVolume.Sampler.PeekVoxel1nx1ny1pz | src/modules/voxel/tests/PolyVoxTest.cpp:147 | reads what the volume holds at cursor + (-1, -1, 1), and the cursor does not move. The chunk holding the voxel read becomes resident, and every other chunk stays as resident as it was |
| PagedVolume.Sampler.PeekVoxel1nx0py1nz | src/modules/voxel/tests/PolyVoxTest.cpp:125 | reads what the volume holds at cursor + (-1, 0, -1), and the cursor does not move. The chunk holding the voxel read becomes resident, and every other chunk stays as resident as it was |
| PagedVolume.Sampler.PeekVoxel1nx0py0pz | src/modules/voxel/tests/PolyVoxTest.cpp:121 | reads what the volume holds at cursor + (-1, 0, 0), and the cursor does not move. The chunk holding the voxel read becomes resident, and every other chunk stays as resident as it was |
| PagedVolume.Sampler.PeekVoxel1nx0py1pz | src/modules/voxel/tests/PolyVoxTest.cpp:127 | reads what the volume holds at cursor + (-1, 0, 1), and the cursor does not move. The chunk holding the voxel read becomes resident, and every other chunk stays as resident as it was |
| PagedVolume.Sampler.PeekVoxel1nx1py1nz | src/modules/voxel/tests/PolyVoxTest.cpp:135 | reads what the volume holds at cursor + (-1, 1, -1), and the cursor does not move. The chunk holding the voxel read becomes resident, and every other chunk stays as resident as it was |
| PagedVolume.Sampler.PeekVoxel1nx1py0pz | src/modules/voxel/tests/PolyVoxTest.cpp:131 | reads what the volume holds at cursor + (-1, 1, 0), and the cursor does not move. The chunk holding the voxel read becomes resident, and every other chunk stays as resident as it was |
| PagedVolume.Sampler.PeekVoxel1nx1py1pz | src/modules/voxel/tests/PolyVoxTest.cpp:137 | reads what the volume holds at cursor + (-1, 1, 1), and the cursor does not move. The chunk holding the voxel read becomes resident, and every other chunk stays as resident as it was |
| PagedVolume.Sampler.PeekVoxel0px1ny1nz | src/modules/voxel/tests/PolyVoxTest.cpp:143 | reads what the volume holds at cursor + (0, -1, -1), and the cursor does not move. The chunk holding the voxel read becomes resident, and every other chunk stays as resident as it was |
| PagedVolume.Sampler.PeekVoxel0px1ny0pz | src/modules/voxel/tests/PolyVoxTest.cpp:73 | reads what the volume holds at cursor + (0, -1, 0), and the cursor does not move. The chunk holding the voxel read becomes resident, and every other chunk stays as resident as it was |
| PagedVolume.Sampler.PeekVoxel0px1ny1pz | src/modules/voxel/tests/PolyVoxTest.cpp:144 | reads what the volume holds at cursor + (0, -1, 1), and the cursor does not move. The chunk holding the voxel read becomes resident, and every other chunk stays as resident as it was |
| PagedVolume.Sampler.PeekVoxel0px0py1nz | src/modules/voxel/tests/PolyVoxTest.cpp:123 | reads what the volume holds at cursor + (0, 0, -1), and the cursor does not move. The chunk holding the voxel read becomes resident, and every other chunk stays as resident as it was |
| PagedVolume.Sampler.PeekVoxel0px0py1pz | src/modules/voxel/tests/PolyVoxTest.cpp:124 | reads what the volume holds at cursor + (0, 0, 1), and the cursor does not move. The chunk holding the voxel read becomes resident, and every other chunk stays as resident as it was |
| PagedVolume.Sampler.PeekVoxel0px1py1nz | src/modules/voxel/tests/PolyVoxTest.cpp:133 | reads what the volume holds at cursor + (0, 1, -1), and the cursor does not move. The chunk holding the voxel read becomes resident, and every other chunk stays as resident as it was |
| PagedVolume.Sampler.PeekVoxel0px1py0pz | src/modules/voxel/tests/PolyVoxTest.cpp:71 | reads what the volume holds at cursor + (0, 1, 0), and the cursor does not move. The chunk holding the voxel read becomes resident, and every other chunk stays as resident as it was |
| PagedVolume.Sampler.PeekVoxel0px1py1pz | src/modules/voxel/tests/PolyVoxTest.cpp:134 | reads what the volume holds at cursor + (0, 1, 1), and the cursor does not move. The chunk holding the voxel read becomes resident, and every other chunk stays as resident as it was |
| PagedVolume.Sampler.PeekVoxel1px1ny1nz | src/modules/voxel/tests/PolyVoxTest.cpp:146 | reads what the volume holds at cursor + (1, -1, -1), and the cursor does not move. The chunk holding the voxel read becomes resident, and every other chunk stays as resident as it was |
| PagedVolume.Sampler.PeekVoxel1px1ny0pz | src/modules/voxel/tests/PolyVoxTest.cpp:142 | reads what the volume holds at cursor + (1, -1, 0), and the cursor does not move. The chunk holding the voxel read becomes resident, and every other chunk stays as resident as it was |
| PagedVolume.Sampler.PeekVoxel1px1ny1pz | src/modules/voxel/tests/PolyVoxTest.cpp:148 | reads what the volume holds at cursor + (1, -1, 1), and the cursor does not move. The chunk holding the voxel read becomes resident, and every other chunk stays as resident as it was |
| PagedVolume.Sampler.PeekVoxel1px0py1nz | src/modules/voxel/tests/PolyVoxTest.cpp:126 | reads what the volume holds at cursor + (1, 0, -1), and the cursor does not move. The chunk holding the voxel read becomes resident, and every other chunk stays as resident as it was |
| PagedVolume.Sampler.PeekVoxel1px0py0pz | src/modules/voxel/tests/PolyVoxTest.cpp:122 | reads what the volume holds at cursor + (1, 0, 0), and the cursor does not move. The chunk holding the voxel read becomes resident, and every other chunk stays as resident as it was |
| PagedVolume.Sampler.PeekVoxel1px0py1pz | src/modules/voxel/tests/PolyVoxTest.cpp:128 | reads what the volume holds at cursor + (1, 0, 1), and the cursor does not move. The chunk holding the voxel read becomes resident, and every other chunk stays as resident as it was |
| PagedVolume.Sampler.PeekVoxel1px1py1nz | src/modules/voxel/tests/PolyVoxTest.cpp:136 | reads what the volume holds at cursor + (1, 1, -1), and the cursor does not move. The chunk holding the voxel read becomes resident, and every other chunk stays as resident as it was |
| PagedVolume.Sampler.PeekVoxel1px1py0pz | src/modules/voxel/tests/PolyVoxTest.cpp:132 | reads what the volume holds at cursor + (1, 1, 0), and the cursor does not move. The chunk holding the voxel read becomes resident, and every other chunk stays as resident as it was |
| PagedVolume.Sampler.PeekVoxel1px1py1pz | src/modules/voxel/tests/PolyVoxTest.cpp:138 | reads what the volume holds at cursor + (1, 1, 1), and the cursor does not move. The chunk holding the voxel read becomes resident, and every other chunk stays as resident as it was |
| PolyVoxTest.ContentNearOrigin | src/modules/voxel/tests/PolyVoxTest.cpp:13-36 | near the first chunk, the volume holds the pattern at non-negative coordinates, and coordinates at -1 are Air |
| PolyVoxTest.AxisNearOrigin | src/modules/voxel/tests/PolyVoxTest.cpp:49 | between -1 and 63, the local coordinate is the coordinate itself, or 63 for -1 |
| PolyVoxTest.Column | src/modules/voxel/tests/PolyVoxTest.cpp:120-148 | a point and the points directly above and below it, all in the first chunk, hold the pattern |
| PolyVoxTest.OriginMiddleLayer | src/modules/voxel/tests/PolyVoxTest.cpp:150-177 | the expected materials of the origin's eight neighbours on layer 0 |
| PolyVoxTest.OriginAboveLayer | src/modules/voxel/tests/PolyVoxTest.cpp:150-177 | the expected materials of the nine voxels above the origin |
| PolyVoxTest.OriginBelow | src/modules/voxel/tests/PolyVoxTest.cpp:150-177 | the voxel below the origin is Air |
| PolyVoxTest.SetUp | src/modules/voxel/tests/PolyVoxTest.cpp:53-60 | after SetUp, exactly the chunk at the centre of the region 0..63 (chunk 0) is resident |
| PolyVoxTest.SamplerPeek | src/modules/voxel/tests/PolyVoxTest.cpp:63-74 | the chunk holds 25, 15 and 5 at (1, 2..0, 1), and the sampler at (1, 1, 1) reads the same values above, at and below the cursor |
| PolyVoxTest.SamplerPeekWithMovingX | src/modules/voxel/tests/PolyVoxTest.cpp:76-83 | moving from (0, 1, 1) up x reads 25, 15 and 5 |
| PolyVoxTest.SamplerPeekWithAir | src/modules/voxel/tests/PolyVoxTest.cpp:85-91 | at (1, 3, 1) the reads are Air, Air and 25 |
| PolyVoxTest.SamplerPeekWithTipOfTheGeom | src/modules/voxel/tests/PolyVoxTest.cpp:93-99 | at (1, 2, 1) the reads are Air, 25 and 15 |
| PolyVoxTest.ReadColumn | src/modules/voxel/tests/PolyVoxTest.cpp:69-72 | the reads above, at and below the cursor are the volume's contents there |
| PolyVoxTest.Mismatch | src/modules/voxel/tests/PolyVoxTest.cpp:150-187 | an expectation fails exactly when the expected and actual values differ |
| PolyVoxTest.FullSamplerLoop | src/modules/voxel/tests/PolyVoxTest.cpp:101-194 | walking every voxel of the region 0..63 row by row, no expectation of the loop fails |
| PolyVoxTest.CheckCell | src/modules/voxel/tests/PolyVoxTest.cpp:120-187 | at any cursor in the region, none of the 27 reads fails its expectation |
| PolyVoxTest.CheckMiddleLayer | src/modules/voxel/tests/PolyVoxTest.cpp:120-130 | the expectations on the cursor's own layer hold |
| PolyVoxTest.CheckAboveLayer | src/modules/voxel/tests/PolyVoxTest.cpp:131-139 | the expectations on the layer above the cursor hold |
| PolyVoxTest.CheckBelowLayer | src/modules/voxel/tests/PolyVoxTest.cpp:140-148 | the expectations on the layer below the cursor hold |
| PolyVoxTest.ExpectCurrent | src/modules/voxel/tests/PolyVoxTest.cpp:150-187 | the voxel under the cursor meets every expectation the loop has of it at y = 0, 1 and 2 |
| PolyVoxTest.ExpectAtOrigin | src/modules/voxel/tests/PolyVoxTest.cpp:150-177 | a read around the origin has the material the loop expects |
| PolyVoxTest.ReadMiddleLayer | src/modules/voxel/tests/PolyVoxTest.cpp:120-130 | each of the nine reads on the cursor's layer is the volume's content at its offset |
| PolyVoxTest.ExpectMiddleLayer | src/modules/voxel/tests/PolyVoxTest.cpp:150-177 | the neighbours on the cursor's layer meet the loop's expectations |
| PolyVoxTest.ReadAboveLayer | src/modules/voxel/tests/PolyVoxTest.cpp:131-139 | each of the nine reads above the cursor is the volume's content at its offset |
| PolyVoxTest.ExpectAboveLayer | src/modules/voxel/tests/PolyVoxTest.cpp:150-187 | the voxels above the cursor meet the loop's expectations |
| PolyVoxTest.ReadBelowLayer | src/modules/voxel/tests/PolyVoxTest.cpp:140-148 | each of the nine reads below the cursor is the volume's content at its offset |
| PolyVoxTest.ExpectBelowLayer | src/modules/voxel/tests/PolyVoxTest.cpp:150-177 | the voxels below the cursor meet the loop's expectations |
| Algorithm.Next | src/modules/core/tests/AlgorithmTest.cpp:55-61 | next(it, n) never moves backwards |
| Algorithm.Distance | src/modules/core/tests/AlgorithmTest.cpp:63-66 | distance is non-negative exactly when first <= last |
| Algorithm.NextDistanceInverse | src/modules/core/tests/AlgorithmTest.cpp:55-66 | distance(it, next(it, n)) == n, next(it, distance(it, last)) == last, and next(it, 0) == it |
| Algorithm.Swap | src/modules/core/tests/AlgorithmTest.cpp:12-23 | the two elements trade places and the contents stay a permutation |
| Algorithm.Insert | src/modules/core/tests/AlgorithmTest.cpp:12-23 | inserting element i into the sorted range [lo, i) gives a sorted range [lo, i], a permutation, with nothing outside touched |
| Algorithm.Sort | src/modules/core/tests/AlgorithmTest.cpp:12-53 | the range [lo, hi) ends sorted and a permutation of itself, and everything outside it is unchanged |
| Algorithm.RangeMultiset | src/modules/core/tests/AlgorithmTest.cpp:45-53 | when the whole is a permutation and the outside is unchanged, the range is a permutation of itself |
| Algorithm.Take | src/modules/core/tests/AlgorithmTest.cpp:68-145 | at most the output buffer's capacity, and a prefix of the full result |
| Algorithm.DifferenceMembers | src/modules/core/tests/AlgorithmTest.cpp:68-89 | x is in the difference exactly when it is in a and not in b |
| Algorithm.DifferenceAscending | src/modules/core/tests/AlgorithmTest.cpp:68-89 | the difference of ascending inputs is ascending |
| Algorithm.IntersectionMembers | src/modules/core/tests/AlgorithmTest.cpp:91-113 | x is in the intersection exactly when it is in both inputs |
| Algorithm.IntersectionAscending | src/modules/core/tests/AlgorithmTest.cpp:91-113 | the intersection of ascending inputs is ascending |
| Algorithm.UnionMembers | src/modules/core/tests/AlgorithmTest.cpp:115-145 | x is in the union exactly when it is in either input |
| Algorithm.UnionAscending | src/modules/core/tests/AlgorithmTest.cpp:115-145 | the union of ascending inputs is ascending |
| Algorithm.AscendingUnique | src/modules/core/tests/AlgorithmTest.cpp:68-145 | two ascending sequences with the same members are equal |
| Algorithm.IntersectionSymmetric | src/modules/core/tests/AlgorithmTest.cpp:91-113 | the intersection does not depend on the order of its inputs |
| Algorithm.UnionSymmetric | src/modules/core/tests/AlgorithmTest.cpp:115-145 | the union does not depend on the order of its inputs |
| Algorithm.SortedDifference | src/modules/core/tests/AlgorithmTest.cpp:68-89 | the buffer's first `amount` elements are the difference, cut off at the buffer's capacity. The cells past `amount` are not written |
| Algorithm.SortedIntersection | src/modules/core/tests/AlgorithmTest.cpp:91-113 | the buffer's first `amount` elements are the intersection, cut off at the buffer's capacity. The cells past `amount` are not written |
| Algorithm.SortedUnion | src/modules/core/tests/AlgorithmTest.cpp:115-145 | the buffer's first `amount` elements are the union, cut off at the buffer's capacity. The cells past `amount` are not written |
| AlgorithmTest.LessIsStrictWeakOrder | src/modules/core/tests/AlgorithmTest.cpp:12-53 | the default comparison is a strict weak order |
| AlgorithmTest.SortedIsAscending | src/modules/core/tests/AlgorithmTest.cpp:12-23 | a sorted permutation of an ascending sequence is that sequence |
| AlgorithmTest.SortTwoElements | src/modules/core/tests/AlgorithmTest.cpp:31-36 | sorting [2, 1] gives [1, 2] |
| AlgorithmTest.SortOneElement | src/modules/core/tests/AlgorithmTest.cpp:25-29 | sorting [1] gives [1] |
| AlgorithmTest.SortEmptyRange | src/modules/core/tests/AlgorithmTest.cpp:38-43 | sorting an empty range leaves [0, -1] as it was |
| AlgorithmTest.SortPrefix | src/modules/core/tests/AlgorithmTest.cpp:45-53 | sorting the first two elements of [0, -1, -2, -4, -6] gives [-1, 0, -2, -4, -6] |
| AlgorithmTest.SortEightElements | src/modules/core/tests/AlgorithmTest.cpp:12-23 | sorting the eight test values gives [-100, 1, 3, 5, 7, 8, 10, 100] |
| AlgorithmTest.DifferenceValue | src/modules/core/tests/AlgorithmTest.cpp:68-80 | the difference of the test buffers is [1, 2, 3, 4, 12] |
| AlgorithmTest.DifferenceReversedValue | src/modules/core/tests/AlgorithmTest.cpp:81-88 | the reversed difference is [6, 8, 9, 13] |
| AlgorithmTest.IntersectionCommon | src/modules/core/tests/AlgorithmTest.cpp:91-113 | the values the two test buffers share are 5, 10, 19 and 26 |
| AlgorithmTest.IntersectionValue | src/modules/core/tests/AlgorithmTest.cpp:91-113 | the intersection is [5, 10, 19, 26] in both argument orders |
| AlgorithmTest.UnionValue | src/modules/core/tests/AlgorithmTest.cpp:115-145 | the union is [1..9] in both argument orders |
| AlgorithmTest.DifferenceCase | src/modules/core/tests/AlgorithmTest.cpp:68-89 | sortedDifference writes 5 elements [1, 2, 3, 4, 12], and 4 elements [6, 8, 9, 13] with the inputs swapped |
| AlgorithmTest.IntersectionCase | src/modules/core/tests/AlgorithmTest.cpp:91-113 | sortedIntersection writes the 4 elements [5, 10, 19, 26] in both argument orders |
| AlgorithmTest.UnionCase | src/modules/core/tests/AlgorithmTest.cpp:115-145 | sortedUnion writes the 9 elements [1..9] in both argument orders |
| AggroMgr.ByRatio | src/modules/backend/entity/ai/aggro/AggroMgr.cpp:70-75 | the ratio mode, with the value parameter zero |
| AggroMgr.ByValue | src/modules/backend/entity/ai/aggro/AggroMgr.cpp:77-82 | the value mode, with the ratio and the minimum zero |
| AggroMgr.EntryLess | src/modules/backend/entity/ai/aggro/AggroMgr.cpp:24-32 | a sorts before b exactly when it has less aggro, or the same aggro and a smaller id |
| AggroMgr.EntryLessIsStrictWeakOrder | src/modules/backend/entity/ai/aggro/AggroMgr.cpp:24-32 | EntrySorter is a strict weak order |
| AggroMgr.LastIsHighest | src/modules/backend/entity/ai/aggro/AggroMgr.cpp:127-135 | the last entry of a sorted list ranks above every entry |
| AggroMgr.FindEntry | src/modules/backend/entity/ai/aggro/AggroMgr.cpp:11-22 | the index of the first entry for the id, or None exactly when no entry has it |
| AggroMgr.LeadingExhausted | src/modules/backend/entity/ai/aggro/AggroMgr.cpp:38-47 | the leading entries up to the count have no aggro left, and the entry after them has some |
| AggroMgr.Remaining | src/modules/backend/entity/ai/aggro/AggroMgr.cpp:34-37 | an entry remains exactly when it was there and has aggro left |
| AggroMgr.Reduced | src/modules/backend/entity/ai/aggro/AggroMgr.cpp:91-94 | every entry is decayed once, in place |
| AggroMgr.RemainingMultiset | src/modules/backend/entity/ai/aggro/AggroMgr.cpp:34-37 | filtering keeps each entry with aggro as often as the list has it, and drops the others |
| AggroMgr.RemainingPermutation | src/modules/backend/entity/ai/aggro/AggroMgr.cpp:96-99 | filtering commutes with reordering |
| AggroMgr.SortedSuffix | src/modules/backend/entity/ai/aggro/AggroMgr.cpp:59 | dropping a prefix of a sorted list leaves it sorted |
| AggroMgr.RemainingAll | src/modules/backend/entity/ai/aggro/AggroMgr.cpp:49-50 | when every entry has aggro left, nothing is dropped |
| AggroMgr.RemainingNone | src/modules/backend/entity/ai/aggro/AggroMgr.cpp:54-56 | when no entry has aggro left, every entry is dropped |
| AggroMgr.SortedCleanup | src/modules/backend/entity/ai/aggro/AggroMgr.cpp:34-60 | on a sorted list, dropping the leading exhausted run equals keeping the entries with aggro left |
| AggroMgr.LeadingExhaustedIsRun | src/modules/backend/entity/ai/aggro/AggroMgr.cpp:38-47 | a run of exhausted entries that ends at the end or at an entry with aggro is the leading run |
| AggroMgr.AggroMgr.constructor | src/modules/backend/entity/ai/aggro/AggroMgr.cpp:84-89 | a new manager has no entries, is clean and has decay disabled |
| AggroMgr.AggroMgr.SetReduceByRatio | src/modules/backend/entity/ai/aggro/AggroMgr.cpp:70-75 | the mode becomes ratio with the given ratio and minimum, and nothing else changes |
| AggroMgr.AggroMgr.SetReduceByValue | src/modules/backend/entity/ai/aggro/AggroMgr.cpp:77-82 | the mode becomes value with the given value, and nothing else changes |
| AggroMgr.AggroMgr.ResetReduceValue | src/modules/backend/entity/ai/aggro/AggroMgr.cpp:84-89 | decay is disabled with every parameter zero, and nothing else changes |
| AggroMgr.Entry.AddAggro | src/modules/backend/entity/ai/aggro/AggroMgr.cpp:122 | the entry gains exactly the amount; its id and decay stay, and the aggro rises exactly when the amount is positive |
| AggroMgr.AggroMgr.Count | src/modules/backend/tests/AggroTest.cpp:41 | count is the number of entries on the list, zero exactly when it is empty |
| AggroMgr.AggroMgr.AddAggro | src/modules/backend/entity/ai/aggro/AggroMgr.cpp:102-125 | an existing entry for the id gains the amount in place. Otherwise a new entry is appended with the manager's decay mode. In both cases the list is dirty |
| AggroMgr.AggroMgr.Sort | src/modules/backend/entity/ai/aggro/AggroMgr.cpp:62-68 | a dirty list becomes a sorted permutation of itself and clean. A clean list is untouched |
| AggroMgr.AggroMgr.CleanupList | src/modules/backend/entity/ai/aggro/AggroMgr.cpp:38-60 | the leading run of entries with no aggro left is dropped |
| AggroMgr.AggroMgr.Update | src/modules/backend/entity/ai/aggro/AggroMgr.cpp:91-100 | when anything changed or the list was dirty, the list becomes the sorted entries with aggro left after the decay. Otherwise it is untouched |
| AggroMgr.AggroMgr.GetHighestEntry | src/modules/backend/entity/ai/aggro/AggroMgr.cpp:127-135 | None exactly for an empty list, which is left as it was. Otherwise the list is sorted and clean, and the result is a handle to its last slot, which holds an entry of the old list that ranks above all others. A clean list keeps its order |
| AggroMgr.SingleCharacter | src/modules/backend/tests/AggroTest.cpp:30-43 | the highest entry is character 1, and after a second add there is one entry, whose aggro read through the earlier handle is 2 |
| AggroMgr.MassTest | src/modules/backend/tests/AggroTest.cpp:12-27 | after adding aggro i for characters 1..max the highest is max, and after a decay that exhausts every entry the list is empty |
| VolumeFormat.LoaderFor | src/modules/voxelformat/VolumeFormat.cpp:40-115 | the importer chosen for each extension and magic word, in branch order. Unknown extensions with no known magic have none |
| VolumeFormat.FirstMatchIsFirst | src/modules/voxelformat/VolumeFormat.cpp:50-110 | the first matching rule of a table decides, and no earlier rule matches |
| VolumeFormat.RuleTestsFront | src/modules/voxelformat/VolumeFormat.cpp:50-80 | the first six rows of the rule table test what the first six branches test |
| VolumeFormat.RuleTestsBack | src/modules/voxelformat/VolumeFormat.cpp:80-110 | the last six rows of the rule table test what the last six branches test |
| VolumeFormat.ChainFront | src/modules/voxelformat/VolumeFormat.cpp:50-80 | a table that tests what the first six branches test decides as they do |
| VolumeFormat.ChainBack | src/modules/voxelformat/VolumeFormat.cpp:80-115 | a table that tests what the last six branches test decides as they do, with nothing after |
| VolumeFormat.LoaderIsFirstMatch | src/modules/voxelformat/VolumeFormat.cpp:50-115 | the if/else chain and the priority table choose the same importer for every input |
| VolumeFormat.SaverFor | src/modules/voxelformat/VolumeFormat.cpp:131-162 | the chosen exporter exists. A listed extension picks the format with that extension; any other falls back to Qubicle |
| VolumeFormat.SaverRoundTrip | src/modules/voxelformat/VolumeFormat.cpp:131-162 | saving under a format's own extension uses that format's exporter |
| VolumeFormat.LoadListIsExact | src/modules/voxelformat/VolumeFormat.cpp:27 | every listed import extension has an importer whatever the magic; any other extension needs a known magic |
| VolumeFormat.VoxelVolumes.constructor | src/modules/voxelformat/VolumeFormat.cpp:167-172 | a new volume list is empty |
| VolumeFormat.VoxelVolumes.Clear | src/modules/voxelformat/VolumeFormat.cpp:167-172 | clearVolumes leaves the list empty |
| VolumeFormat.VoxelVolumes.LoadGroups | src/modules/voxelformat/VolumeFormat.cpp:50-110 | a loader's result appends its layers and reports its verdict |
| VolumeFormat.LoadVolumeFormat | src/modules/voxelformat/VolumeFormat.cpp:40-122 | a missing file fails and changes nothing. A file with no importer fails. Otherwise the importer runs: its layers are appended, a failed import clears the list, and the result is true exactly when the list is then not empty |
| VolumeFormat.SaveVolumeFormat | src/modules/voxelformat/VolumeFormat.cpp:124-165 | an empty volume list fails without saving. Otherwise the exporter for the file's extension (Qubicle when unknown) decides the result |
| LuaGenerator.NotPrefix | src/modules/voxelgenerator/LUAGenerator.cpp:282-296 | a text is not a prefix of one it differs from at a shared position |
| LuaGenerator.PrefixesDiffer | src/modules/voxelgenerator/LUAGenerator.cpp:293-296 | "str" and "bool" cannot both start one value |
| LuaGenerator.ParseType | src/modules/voxelgenerator/LUAGenerator.cpp:288-300 | "int" and "float" match exactly, and any value starting "str" or "bool" is a string or Boolean. Everything else is an error, and the marker Max never results |
| LuaGenerator.Classify | src/modules/voxelgenerator/LUAGenerator.cpp:282-303 | "name", "default" and "type" match exactly, any key starting "desc" is the description, and each kind is recognised exactly for its keys |
| LuaGenerator.ApplyPairsMeaning | src/modules/voxelgenerator/LUAGenerator.cpp:273-305 | reading an entry's pairs fails exactly when a pair's key is not a string, its value is neither a string nor a number, or a type value is unknown. A number key fails, because converting it in place breaks the traversal. Otherwise each field holds the last value given for it |
| LuaGenerator.ApplyPairsDefined | src/modules/voxelgenerator/LUAGenerator.cpp:275-300 | reading fails exactly when some pair is malformed; a number key counts as malformed |
| LuaGenerator.ApplyPairsFields | src/modules/voxelgenerator/LUAGenerator.cpp:282-300 | a successful read leaves each field with the value of the last pair of its kind, or its initial value |
| LuaGenerator.ApplyPairsText | src/modules/voxelgenerator/LUAGenerator.cpp:282-287 | name, description and default each end with the last value given for them |
| LuaGenerator.ApplyPairsType | src/modules/voxelgenerator/LUAGenerator.cpp:288-300 | the type ends as the type of the last type pair, or stays Max |
| LuaGenerator.LastTypeIsKnown | src/modules/voxelgenerator/LUAGenerator.cpp:288-300 | after a successful read, a given type pair always names a real type |
| LuaGenerator.EntryMeaning | src/modules/voxelgenerator/LUAGenerator.cpp:264-317 | an entry is accepted exactly when it is a table of well-formed pairs (string keys only) with a non-empty name and a type, and its fields are the last values given |
| LuaGenerator.ParseEntriesMeaning | src/modules/voxelgenerator/LUAGenerator.cpp:259-320 | one description per entry up to the first bad one. The parse succeeds exactly when every entry is good, and otherwise the entry after the kept ones is bad |
| LuaGenerator.NoArgumentsIsSuccess | src/modules/voxelgenerator/LUAGenerator.cpp:236-252 | no `arguments` function, or one that returns nothing, succeeds with no parameters |
| LuaGenerator.NumberKeyFails | src/modules/voxelgenerator/LUAGenerator.cpp:274-280 | the entry `{ 'x', name = 'n', type = 'int' }` cannot be read, because its positional value sits at number key 1; without it the entry reads as parameter n of type int |
| LuaGenerator.ReadEntry | src/modules/voxelgenerator/LUAGenerator.cpp:269-305 | the traversal loop over one entry's pairs computes the pair-by-pair reading, and stops with a failure at a non-string value, a key that is not a string (a number key included) or an unknown type |
| LuaGenerator.ArgumentInfo | src/modules/voxelgenerator/LUAGenerator.cpp:225-321 | argumentInfo's verdict, with the descriptions it appends to the caller's list, including those of the entries before a bad one. The script must load into a bare interpreter, and an entry with a number key is a bad one |
| LuaGenerator.ReadEntries | src/modules/voxelgenerator/LUAGenerator.cpp:259-320 | the loop over the table's entries computes the entry-by-entry parse |
| LuaGenerator.ParseBool | src/modules/voxelgenerator/LUAGenerator.cpp:331-334 | a Boolean argument is true exactly for "1" or "true" |
| LuaGenerator.ArgumentText | src/modules/voxelgenerator/LUAGenerator.cpp:326 | the supplied argument when there is one, else the default |
| LuaGenerator.ArgumentValue | src/modules/voxelgenerator/LUAGenerator.cpp:327-345 | a value is pushed exactly for a real type, and a Boolean is parsed as above |
| LuaGenerator.PushArgs | src/modules/voxelgenerator/LUAGenerator.cpp:323-348 | one value per description from the arguments or the defaults. The push succeeds exactly when no description lacks a type, and otherwise stops at the first such description |
| LuaGenerator.ParsedHaveTypes | src/modules/voxelgenerator/LUAGenerator.cpp:312-317 | every description argumentInfo produces has a type, so pushing its arguments cannot fail |
| LuaGenerator.VolumeVoxel | src/modules/voxelgenerator/LUAGenerator.cpp:56-68 | -1 exactly for Air, otherwise the voxel's colour |
| LuaGenerator.RegionWidth | src/modules/voxelgenerator/LUAGenerator.cpp:118-122 | the width counts both corners: the last column lies in the region and the next does not |
| LuaGenerator.RegionHeight | src/modules/voxelgenerator/LUAGenerator.cpp:124-128 | the height counts both corners along y |
| LuaGenerator.RegionDepth | src/modules/voxelgenerator/LUAGenerator.cpp:130-134 | the depth counts both corners along z |
| LuaGenerator.RegionMins | src/modules/voxelgenerator/LUAGenerator.cpp:136-158 | the lower corner (and its x, y, z) lies in a valid region and is below every point in it |
| LuaGenerator.RegionMaxs | src/modules/voxelgenerator/LUAGenerator.cpp:160-164 | the upper corner lies in a valid region and is above every point in it |
| LuaGenerator.Exec | src/modules/voxelgenerator/LUAGenerator.cpp:350-428 | a failed argumentInfo fails. "help" then succeeds without calling main. Otherwise main is called exactly when the script loads into the interpreter prepared with the generator's globals, defines main and a volume is given, with 3 + parameter count arguments, the voxel's colour and each parameter's value converted from its argument or default, and its success is the result. A script that fails to load, has no main or gets no volume fails |
| Persistence.CheckLastResult | src/modules/persistence/Model.cpp:38-74 | a null result or a failed, fatal or unexpected status is false, and a non-fatal error still succeeds. The row count is taken only on success |
| Persistence.Model.constructor | src/modules/persistence/Model.cpp:14-17 | a new model has its table and fields and no values |
| Persistence.Model.FindField | src/modules/persistence/Model.cpp:105-112 | the first field with the name, or None exactly when no field has it |
| Persistence.Model.GetField | src/modules/persistence/Model.cpp:105-112 | the first field with the name, otherwise the default field |
| Persistence.Model.IsPrimaryKey | src/modules/persistence/Model.cpp:23-32 | false for an unknown name, otherwise the primary-key bit of the first field with that name |
| Persistence.Model.KnownMeaning | src/modules/persistence/Model.cpp:154-159 | a column is accepted exactly when a field has its name, or when the name is empty |
| Persistence.Model.StoreColumnsUntouched | src/modules/persistence/Model.cpp:143-177 | a name no column carries keeps its old value |
| Persistence.Model.StoreColumnsLast | src/modules/persistence/Model.cpp:143-177 | a column's name holds that column's converted value when no later column has the same name |
| Persistence.Model.FirstUnknown | src/modules/persistence/Model.cpp:154-159 | the first column without a field, or None exactly when every column has one |
| Persistence.Model.FillModelValues | src/modules/persistence/Model.cpp:126-179 | unless exactly one row was affected nothing is set and the state's verdict is returned. Otherwise the columns are set in order, and a column without a field stops the fill with false |
| Persistence.Model.StoreRow | src/modules/persistence/Model.cpp:143-177 | the columns are stored in order up to the first one without a field, and the result says whether all were stored |
| Persistence.Model.Exec | src/modules/persistence/Model.cpp:76-103 | without a connection nothing is sent and the call fails. Otherwise the query is sent. A missing result fails; a failed status succeeds only as a non-fatal error; a success with other than one row succeeds; none of these change the values. A one-row success stores the columns up to the first that names no field and succeeds exactly when there is none |
| Persistence.Model.Begin | src/modules/persistence/Model.cpp:114-116 | begin sends "START TRANSACTION;" and has the same verdict and values as exec of that query |
| Persistence.Model.Commit | src/modules/persistence/Model.cpp:118-120 | commit sends "COMMIT;" and has the same verdict and values as exec of that query |
| Persistence.Model.Rollback | src/modules/persistence/Model.cpp:122-124 | rollback sends "ROLLBACK;" and has the same verdict and values as exec of that query |
| Persistence.ScopedTransaction.constructor | src/modules/persistence/Model.cpp:277-279 | a new guard is open |
| Persistence.ScopedTransaction.Commit | src/modules/persistence/Model.cpp:289-295 | the first commit or rollback sends COMMIT, closes the guard, and leaves the model's verdict and values as exec of COMMIT does. Later calls send nothing and leave the values as they were |
| Persistence.ScopedTransaction.Rollback | src/modules/persistence/Model.cpp:297-303 | the first commit or rollback sends ROLLBACK, closes the guard, and leaves the model's verdict and values as exec of ROLLBACK does. Later calls send nothing and leave the values as they were |
| Persistence.ScopedTransaction.Finish | src/modules/persistence/Model.cpp:281-287 | an open guard at scope end commits under autocommit and rolls back otherwise, with the values exec of that query leaves. A closed guard sends nothing and leaves the values as they were |
| Persistence.CommitOnce | src/modules/persistence/Model.cpp:277-303 | a guard committed by hand and then committed, rolled back and closed again sends exactly one COMMIT |
| Persistence.GuardScopes | src/modules/persistence/Model.cpp:277-303 | guards left to their scope's end roll back, or commit under autocommit |
| LSystem.RunAppend | src/modules/voxel/tests/LSystemGeneratorTest.cpp:15-69 | interpreting s and then u is interpreting s + u |
| LSystem.KeepsBase | src/modules/voxel/tests/LSystemGeneratorTest.cpp:15-28 | a string that never pops below its starting depth keeps the saved cursors below untouched and ends Depth(s) deeper |
| LSystem.BracketRestores | src/modules/voxel/tests/LSystemGeneratorTest.cpp:15-41 | "[" t "]" returns the cursor and the saved cursors to where they were, for balanced t |
| LSystem.NoGenerations | src/modules/voxel/tests/LSystemGeneratorTest.cpp:43-56 | with no generations left nothing moves |
| LSystem.LSystemState.constructor | src/modules/voxel/tests/LSystemGeneratorTest.cpp:22 | a fresh state is at the origin |
| LSystem.Expand | src/modules/voxel/tests/LSystemGeneratorTest.cpp:15-84 | expand, walking the string symbol by symbol with its own stack, leaves the cursor where the turtle semantics puts it |
| LSystemTest.Forward | src/modules/voxel/tests/LSystemGeneratorTest.cpp:19-27 | "AXYZ" moves the cursor by (1, 1, 1) when A has no rule |
| LSystemTest.Backward | src/modules/voxel/tests/LSystemGeneratorTest.cpp:32-40 | "xyz" moves the cursor by (-1, -1, -1) |
| LSystemTest.ForwardAgain | src/modules/voxel/tests/LSystemGeneratorTest.cpp:60-68 | "XYZ" moves the cursor by (1, 1, 1) |
| LSystemTest.LastGenerationIgnoresRules | src/modules/voxel/tests/LSystemGeneratorTest.cpp:43-56 | with one generation left, rule expansions move nothing |
| LSystemTest.AY | src/modules/voxel/tests/LSystemGeneratorTest.cpp:45 | "AY" moves by A's expansion and then one up |
| LSystemTest.MultipleAxiomParts | src/modules/voxel/tests/LSystemGeneratorTest.cpp:45 | how the multiple-states axiom splits around its bracketed parts |
| LSystemTest.MultipleBracketsBalanced | src/modules/voxel/tests/LSystemGeneratorTest.cpp:45 | both bracketed parts of that axiom are balanced |
| LSystemTest.AYBracket | src/modules/voxel/tests/LSystemGeneratorTest.cpp:45 | "AY" followed by a balanced bracketed part moves as "AY" alone |
| LSystemTest.Multiple | src/modules/voxel/tests/LSystemGeneratorTest.cpp:45-55 | the multiple-states axiom moves by three times A's expansion, and 3 up |
| LSystemTest.MultipleInner | src/modules/voxel/tests/LSystemGeneratorTest.cpp:45-55 | with one generation left, A's rule moves the cursor 3 up |
| LSystemTest.MultipleOuter | src/modules/voxel/tests/LSystemGeneratorTest.cpp:45-55 | with two generations the axiom moves the cursor 12 up |
| LSystemTest.WalkRuleA1 | src/modules/voxel/tests/LSystemGeneratorTest.cpp:76 | the first part of A's rule moves by (0, 1, 0) |
| LSystemTest.WalkRuleA2 | src/modules/voxel/tests/LSystemGeneratorTest.cpp:76 | the second part moves by (1, 0, 0) |
| LSystemTest.WalkRuleA3 | src/modules/voxel/tests/LSystemGeneratorTest.cpp:76 | the third part moves by (2, 1, 0) |
| LSystemTest.WalkRuleA4 | src/modules/voxel/tests/LSystemGeneratorTest.cpp:76 | the fourth part moves by (0, 1, 2) |
| LSystemTest.WalkRuleA | src/modules/voxel/tests/LSystemGeneratorTest.cpp:76 | A's rule moves by (3, 3, 2) |
| LSystemTest.WalkRuleB | src/modules/voxel/tests/LSystemGeneratorTest.cpp:77 | B's rule returns the cursor to where it was |
| LSystemTest.GenerateRuleA | src/modules/voxel/tests/LSystemGeneratorTest.cpp:76 | A's rule with one generation left moves by (3, 3, 2) |
| LSystemTest.GenerateRuleB | src/modules/voxel/tests/LSystemGeneratorTest.cpp:77 | B's rule with one generation left returns the cursor |
| LSystemTest.GenerateAxiom | src/modules/voxel/tests/LSystemGeneratorTest.cpp:71-84 | with two generations "AB" moves by (3, 3, 2) |
| LSystemTest.RuleTables | src/modules/voxel/tests/LSystemGeneratorTest.cpp:43-84 | the rule tables are the ones the test cases install |
| LSystemTest.StatePushPop | src/modules/voxel/tests/LSystemGeneratorTest.cpp:15-28 | "AXYZ[XYZ]" ends at (1, 1, 1) |
| LSystemTest.StatePushPopPositionChangeToInit | src/modules/voxel/tests/LSystemGeneratorTest.cpp:30-41 | "AXYZ[XYZ]xyz" ends at the origin |
| LSystemTest.MultipleStates | src/modules/voxel/tests/LSystemGeneratorTest.cpp:43-56 | with A expanding to the axiom and two generations, the cursor ends at (0, 12, 0) |
| LSystemTest.StatePositionChangeTwice | src/modules/voxel/tests/LSystemGeneratorTest.cpp:58-69 | "AXYZXYZ" ends at (2, 2, 2) |
| LSystemTest.GenerateVoxels | src/modules/voxel/tests/LSystemGeneratorTest.cpp:71-84 | the cursor the model predicts for the generation test's axiom and rules: it ends at (3, 3, 2) |
| TBLanguage.DebugPlaceholdersDiffer | src/modules/ui/turbobadger/tb/tb_language.h:37-41 | two debug placeholders are equal exactly when their ids are |
| TBLanguage.AddAllIds | src/modules/ui/turbobadger/tb/tb_language.h:29-32 | loading only adds: the ids afterwards are the old ids and those of the file |
| TBLanguage.AddAllUntouched | src/modules/ui/turbobadger/tb/tb_language.h:29-32 | an id the file does not name keeps its string |
| TBLanguage.AddAllLast | src/modules/ui/turbobadger/tb/tb_language.h:29-32 | the last pair for an id decides its string |
| TBLanguage.Language.constructor | src/modules/ui/turbobadger/tb/tb_language.h:44 | a new manager has no strings |
| TBLanguage.Language.Load | src/modules/ui/turbobadger/tb/tb_language.h:29-32 | a readable file's strings are added to the table without clearing it. An unreadable file fails and changes nothing |
| TBLanguage.Language.GetString | src/modules/ui/turbobadger/tb/tb_language.h:37-41 | a stored id gives its string. A missing id gives "<TRANSLATE:id>" in debug builds and "<TRANSLATE!>" in release builds |
| TBLanguage.Language.Clear | src/modules/ui/turbobadger/tb/tb_language.h:34-35 | the table is empty |
| TBLanguage.LookupAfterLoad | src/modules/ui/turbobadger/tb/tb_language.h:29-41 | after a load, a lookup gives the last string the file gives the id, else the old string or the placeholder |
| TBLanguage.LoadKeepsStrings | src/modules/ui/turbobadger/tb/tb_language.h:29-32 | an id with a string keeps one through every load |
| TBLanguage.ClearThenLookup | src/modules/ui/turbobadger/tb/tb_language.h:34-41 | after clear, a lookup gives "<TRANSLATE:id>" in debug builds and "<TRANSLATE!>" in release builds |
| TBLanguage.LoadThenLookup | src/modules/ui/turbobadger/tb/tb_language.h:29-41 | a loaded string is what a lookup of its id gives |

## Left out

- PagedVolume: the memory budget, chunk eviction and locking are not modelled. The volume keeps every chunk it pages in. Also left out are `Volume::setVoxel`, and the sampler's caching of the current chunk and its address arithmetic. The reads are specified by their values.
- PagedVolume: the only pager is the test's pattern pager. Any other pager, and the region it is handed beyond its shape, are not part of this model.
- Voxel.Region.Centre: it rounds half the extent down, as an integer division would. The region class itself is not part of this model.
- Algorithm.SortedDifference, Algorithm.SortedIntersection, Algorithm.SortedUnion: the source passes `amount` by reference, and its tests set it to 0 before every call. The implementation file is not part of this model. The model returns the count as a fresh result that starts at 0.
- AggroMgr.AggroMgr.GetHighestEntry: the handle into the list is the index of the slot, so it sees later changes to that slot as the source's pointer does. That a later append may reallocate the list and leave the pointer dangling is not modelled.
- AggroMgr.EntryLess: the float tolerance of 0.0000001 on equal aggro is left out, because aggro is a real. Equal means equal.
- AggroMgr.AggroMgr.Update: `Entry::reduceByTime` is not part of this model. It is a parameter that returns the decayed entry and whether it changed. Its only requirement is that an unchanged entry is the same entry.
- AggroMgr.MassTest: the per-entry `setReduceByValue(i)` and its decay over 1000 ms are given as the reduce parameter. Its requirement is that this decay exhausts every entry.
- The degrade-value test (AggroTest.cpp:61-81) is left out. It depends on the `reduceByTime` formula, which is not part of this model.
- The aggro manager's constructor argument (AggroTest.cpp:13) is left out. The model's list has no capacity.
- VolumeFormat: the format importers and exporters are parameters. Reading the magic word from a file is also left out. The word is a field of the file.
- VolumeFormat.SaveVolumeFormat: the unreachable log and return after the dispatch (VolumeFormat.cpp:163-164) is left out.
- LuaGenerator: the Lua interpreter, its stack and the script's own code are left out. What the host observes of a script is a datatype.
- LuaGenerator: the palette functions, the closest colour match and `setvoxel` are left out. So is the region's `tostring` formatting.
- LuaGenerator.ArgumentInfo: a number key in an entry raises a Lua error from `lua_next` outside any protected call, so the source does not return at all. The model reports that run as a failed argumentInfo.
- LuaGenerator.PushArgs: the conversion of integer and float text is left out. Such values carry their text.
- LuaGenerator.Exec: the `GENERATOR_LUA_SANTITY` checks are left out, because the model's stack always has the shape they test. A missing volume (`luaL_error`) is modelled as a failed call.
- Persistence: the database is given as the reply the next query gets. Also left out are the sqlite build, prepared statements, and the default field and constraint constants, which live in a header that is not part of this model.
- LSystem: the placement of voxels for voxel symbols, the random generator and `generate` are left out. Only the cursor is modelled.
- LSystem.Expand: a `]` with nothing saved is ignored. The generator's source is not part of this model.
- TBLanguage: the parsing of language files, the hashing of ids into numbers, and the order of duplicate ids within one file are left out. In the model a later pair wins. The implementation file of the language manager is not part of this model.
- PolyVoxTest.CheckCell: it checks each layer's expectations right after reading that layer, not after all 27 reads. The reads only page chunks in, so the values are the same.
