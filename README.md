# Simplex subdivision integration — a verified model of the adaptive core

This project models the adaptive hierarchic integrators of the Rust crate
Simplex-Subdivision-Integration, along with the pieces they rest on. The
integrators work on triangles (2D) and tetrahedra (3D). Each one integrates a
function given in barycentric coordinates over a simplex. It keeps a cache tree
of sub-cells across calls. Each pass walks the tree depth-first and estimates
every leaf with a base quadrature rule. A leaf that is neither checked nor
consolidated is compared with the sum over its own sub-cells. When the two
differ by more than the precision, the leaf is split. Passes repeat until one
of them splits nothing.

Every sub-cell is addressed by its path of labels, leaf first. The composed
barycentric transformation maps the reference cell onto that sub-cell. In 3D
a tetrahedron splits into four corner tetrahedra (labels 1-4) and an inner
octahedron (13). An octahedron splits into eight tetrahedra (5-12) and six
octahedra (14-19). An octahedron is integrated as four tetrahedra.

Modules:

- `Wrappers` holds `Option` and `Result`. A `Panic` value stands for each
  panic of the source: a shape mismatch in a matrix product, an index out of
  bounds, an illegal domain number, a label with no table, and the empty
  label path that makes `len() - 1` underflow.
- `Matrices` holds shaped real matrices. `Dot` fails on a shape mismatch the
  way ndarray's `dot` panics. It proves associativity and identity laws, and
  that products of barycentric tables are barycentric.
- `Common` holds `det3x3` and `det4x4` as loops over `array2`. They are proved
  equal to the Sarrus rule and to a cofactor expansion.
- `Domain2D` and `Domain3D` hold the simplices. They cover construction from
  points, the volume of a tetrahedron, `function_vec`, and the root
  integration with the identity transformation.
- `Functions2D` and `Functions3D` hold the constant integrand and the
  `History` decorators. A decorator is a class whose method records every
  evaluation.
- `Visual3D` is the `OrientationChecker`, which probes the four mapped
  vertices.
- `CacheTree` is the indextree arena. It is a sequence of nodes with the root
  at index 0, and new children are appended at the end. It also holds the
  post-order walk, the ancestor walk and the node updates.
- `Refinement` holds the refinement pass and the outer loop. They are stated
  once over an estimate function and a child-label function. It proves
  - what a pass does to each leaf,
  - that a consolidated integrator never changes its cache,
  - that the settled cache is a fixed point,
  - that the cache only grows.
- `Hierarchic2D` and `Hierarchic3D` hold the transformation tables,
  `get_transformation`, the per-leaf estimate, the cache class with its
  imperative loops, and `integrate_over_domain`. Each loop is proved equal
  to the shared pass. Both modules also prove that the integrator never
  panics on a cache it built itself.

The 3D source has three defects, listed under "## Findings". The model keeps
the code as written beside the corrected definitions and proves each
discrepancy. The integrator itself is built on the corrected definitions.

## Model

| member | source | states |
|---|---|---|
| Common.Det3x3 | src/common.rs:11-26 | the loop returns the determinant `Det3` of the array's entries, and an array with fewer than 3 rows or columns is the index panic |
| Common.RisingDiagonal | src/common.rs:14-18 | the inner loop yields the product of the three entries on the wrapped diagonal that starts in column j |
| Common.FallingDiagonal | src/common.rs:19-23 | the second inner loop yields minus the product of the three entries on the wrapped anti-diagonal that starts in column j |
| Common.SarrusComplete | src/common.rs:11-26 | the three rising and three falling diagonal products sum to the cofactor determinant |
| Common.DiagonalPair | src/common.rs:13-23 | the j-th pair of inner loops multiplies the entries on the wrapped diagonal `(i, (i+j) mod 3)` and on the anti-diagonal `(2-i, (i+j) mod 3)` |
| Common.FillMinor | src/common.rs:32-43 | the filled 3x3 array is the minor of column 0 and row i: rows below i shift up by one, and column k+1 becomes k |
| Common.Minor | src/common.rs:33-43 | the minor is 3x3, and entry (j,k) is the original entry at row `j+1` when `j >= i` (row j otherwise) and column `k+1` |
| Common.SignedCofactor | src/common.rs:31-44 | one step of the expansion adds `(-1)^i * a[i,0] * det3x3(minor)` |
| Common.Det4x4 | src/common.rs:28-47 | the loop returns the cofactor expansion `Det4` along column 0, and an array with fewer than 4 rows or columns is the index panic |
| Common.Det3Identity | src/common.rs:11-26 | the 3x3 identity has determinant 1 |
| Common.Det4Identity | src/common.rs:28-47 | the 4x4 identity has determinant 1 |
| Common.Det4ZeroColumn | src/common.rs:28-47 | a zero first column gives determinant 0 |
| Common.CofactorSumZero | src/common.rs:30-45 | every partial sum of the expansion over a zero first column is 0 |
| Domain2D.NewFromPoints | src/integration_2d/domain.rs:11-15 | succeeds iff every point has two coordinates, and gives a 2x3 matrix |
| Domain2D.PointsAreColumns | src/integration_2d/domain.rs:11-15 | the i-th point becomes the i-th column |
| Domain2D.ArrayRoundTrip | src/integration_2d/domain.rs:17-23 | `get_points(new_from_array(p)) == p`, and the reverse round trip holds |
| Domain2D.FunctionVec | src/integration_2d/domain.rs:32-34 | succeeds iff the coordinate vector has at least three entries (indexing panics otherwise) |
| Domain2D.FunctionVecOfCoordinates | src/integration_2d/domain.rs:32-34 | on any vector of at least 3 entries it is the integrand at its first three coordinates, in order; a shorter vector is the index panic |
| Domain3D.NewFromPoints | src/integration_3d/domain.rs:49-57 | succeeds iff every point has three coordinates, and gives a 3x4 matrix |
| Domain3D.PointsAreColumns | src/integration_3d/domain.rs:49-57 | the i-th point becomes the i-th column |
| Domain3D.ArrayRoundTrip | src/integration_3d/domain.rs:59-65 | the constructor from an array and `get_points` are mutually inverse |
| Domain3D.EdgeMatrix | src/integration_3d/domain.rs:68-84 | column j is the edge from vertex 0 to vertex j+1 |
| Domain3D.GetVolume | src/integration_3d/domain.rs:67-89 | succeeds iff the point matrix has at least 3 rows and 4 columns, and then returns one sixth of the edge determinant |
| Domain3D.ReferenceVolume | src/integration_3d/domain.rs:67-89 | the unit reference tetrahedron has volume 1/6 |
| Domain3D.VolumeTranslationInvariant | src/integration_3d/domain.rs:67-89 | translating all four vertices leaves the volume unchanged |
| Domain3D.VolumeSwapNegates | src/integration_3d/domain.rs:67-89 | swapping vertices 1 and 2 negates the signed volume |
| Domain3D.FunctionVec | src/integration_3d/domain.rs:98-100 | succeeds iff the coordinate vector has at least four entries |
| Domain3D.FunctionVecOfCoordinates | src/integration_3d/domain.rs:98-100 | on any vector of at least 4 entries it is the integrand at its first four coordinates, in order; a shorter vector is the index panic |
| Functions2D.Constant | src/integration_2d/functions.rs:9-13 | the constant integrand is 1 everywhere |
| Functions2D.ConstantVec | src/integration_2d/functions.rs:9-13 | `function_vec` of the constant is 1 whenever the vector is long enough, and the index panic otherwise |
| Functions2D.FunctionHistory.constructor | src/integration_2d/functions.rs:31-36 | a new decorator has an empty history and wraps the given function |
| Functions2D.FunctionHistory.GetHistory | src/integration_2d/functions.rs:39-41 | returns the recorded history and leaves it empty |
| Functions2D.FunctionHistory.FunctionEvaluations | src/integration_2d/functions.rs:43-45 | the number of recorded evaluations |
| Functions2D.FunctionHistory.DeleteHistory | src/integration_2d/functions.rs:48-50 | the history becomes empty |
| Functions2D.FunctionHistory.Function | src/integration_2d/functions.rs:54-60 | returns the wrapped function's value and appends the coordinates and that value to the history |
| Functions2D.RecordFaithfully | src/integration_2d/functions.rs:54-60 | every history entry holds the wrapped function's value at its coordinates; one call adds exactly one entry |
| Functions3D.Constant | src/integration_3d/functions.rs:7-11 | the constant integrand is 1 everywhere |
| Functions3D.ConstantVec | src/integration_3d/functions.rs:7-11 | `function_vec` of the constant is 1 on long enough vectors, and the index panic otherwise |
| Functions3D.FunctionHistory.constructor | src/integration_3d/functions.rs:20-25 | empty history, wraps the given function |
| Functions3D.FunctionHistory.GetHistory | src/integration_3d/functions.rs:28-30 | returns the history and leaves it empty |
| Functions3D.FunctionHistory.FunctionEvaluations | src/integration_3d/functions.rs:32-34 | the number of recorded evaluations |
| Functions3D.FunctionHistory.DeleteHistory | src/integration_3d/functions.rs:37-39 | the history becomes empty |
| Functions3D.FunctionHistory.Function | src/integration_3d/functions.rs:43-49 | returns the wrapped value and appends one entry with the four coordinates |
| Functions3D.RecordFaithfully | src/integration_3d/functions.rs:43-49 | the history stays faithful to the wrapped function and grows by one |
| Visual3D.PointOrder | src/integration_3d/integrators/visual_integrator.rs:18-26 | vertex n < 4 is the n-th unit vector, and any other n falls back to vertex 0 |
| Visual3D.IntegrateOverDomain | src/integration_3d/integrators/visual_integrator.rs:30-45 | the loop returns the sum of the integrand at the four mapped vertices (the `Probes` specification) |
| Visual3D.ErrorStays | src/integration_3d/integrators/visual_integrator.rs:38-43 | once a probe's product fails, the whole sum fails with that error |
| Visual3D.ProbesAreColumns | src/integration_3d/integrators/visual_integrator.rs:38-43 | the probes succeed iff the transformation has four columns and at least four rows, and the j-th probe evaluates the integrand at column j |
| Visual3D.IdentityVisitsVertices | src/integration_3d/integrators/visual_integrator.rs:37-44 | with the identity transformation, the checker sums the integrand at the four vertices of the simplex |
| Visual3D.ConstantCountsVertices | src/integration_3d/integrators/visual_integrator.rs:37-44 | for the constant integrand, any 4x4 transformation gives 4 |
| Matrices.MulAssoc | src/integration_2d/integrators/hierarchic_integrator.rs:55-59 | matrix product is associative, so composing transformations in the loop does not depend on grouping |
| Matrices.MulUnitColumns | src/integration_2d/integrators/hierarchic_integrator.rs:55-59 | a product of barycentric tables (columns summing to 1) is barycentric |
| Matrices.MulIdentityLeft | src/integration_2d/integrators/hierarchic_integrator.rs:54-58 | starting the product from the identity does not change it |
| Matrices.MulSelectsColumn | src/integration_3d/integrators/hierarchic_integrator.rs:285-286 | multiplying by a table whose column j is a unit vector picks the matching column of the other factor |
| CacheTree.Fresh | src/integration_2d/integrators/hierarchic_integrator.rs:82-90 | a new arena is well formed and holds only the unchecked root labelled 0 |
| CacheTree.Path | src/integration_2d/integrators/hierarchic_integrator.rs:166-173 | the ancestor vector starts with the leaf's own label |
| CacheTree.PathEndsAtRoot | src/integration_2d/integrators/hierarchic_integrator.rs:166-173 | the ancestor vector ends with the root's label and has length 1 exactly for the root |
| CacheTree.Ancestors | src/integration_2d/integrators/hierarchic_integrator.rs:166-173 | the parent-chasing loop returns `Path` |
| CacheTree.SetChecked | src/integration_2d/integrators/hierarchic_integrator.rs:212 | only the flag of the given node changes |
| CacheTree.AppendChild | src/integration_2d/integrators/hierarchic_integrator.rs:216-222 | a new unchecked leaf with the given label is added at the end, and the parent lists it last |
| CacheTree.AddChildren | src/integration_2d/integrators/hierarchic_integrator.rs:214-223 | appends one unchecked leaf per label, in order, and changes nothing else |
| CacheTree.AddChildrenWellFormed | src/integration_2d/integrators/hierarchic_integrator.rs:214-223 | appending children keeps the arena well formed |
| CacheTree.AddChildrenSnoc | src/integration_3d/integrators/hierarchic_integrator.rs:497-535 | appending the labels one at a time gives the same arena as appending them all at once |
| CacheTree.RangeMembers | src/integration_3d/integrators/hierarchic_integrator.rs:498-534 | the label ranges of the append loops hold exactly the labels between their bounds |
| CacheTree.Traversal | src/integration_2d/integrators/hierarchic_integrator.rs:155-161 | the depth-first walk visits every node exactly once |
| CacheTree.PathOfSameSpine | src/integration_2d/integrators/hierarchic_integrator.rs:164-173 | appending nodes elsewhere does not change an existing node's ancestor vector |
| CacheTree.UncheckLeaves | src/integration_2d/integrators/hierarchic_integrator.rs:92-109 | exactly the leaves lose their checked flag; labels and links stay |
| CacheTree.UncheckLeavesShape | src/integration_2d/integrators/hierarchic_integrator.rs:92-109 | unchecking keeps the arena well formed, and keeps its shape and its walk order |
| Refinement.ChildSum | src/integration_2d/integrators/hierarchic_integrator.rs:193-208 | the sum over the sub-cells succeeds iff every sub-cell estimate succeeds |
| Refinement.ChildSumErrorStays | src/integration_2d/integrators/hierarchic_integrator.rs:193-208 | the first failing sub-cell's error is the error of the whole sum |
| Refinement.Decide | src/integration_2d/integrators/hierarchic_integrator.rs:183-231 | a checked or consolidated leaf keeps its estimate; otherwise the leaf splits iff the estimate and the sub-cell sum differ by more than the precision, and then contributes that sum |
| Refinement.Pass | src/integration_2d/integrators/hierarchic_integrator.rs:149-239 | a successful pass leaves a well-formed arena that extends the old one |
| Refinement.PassEffect | src/integration_2d/integrators/hierarchic_integrator.rs:149-239 | a pass succeeds iff every leaf's outcome does; inner nodes are untouched, each leaf is refined as decided, every new node is an unchecked leaf under a split leaf, `changed` holds iff some leaf split, and the total is the sum of the leaf values in walk order |
| Refinement.PassNewLeaves | src/integration_2d/integrators/hierarchic_integrator.rs:214-223 | after a successful pass the old nodes keep their links and labels, and every appended node is an unchecked leaf whose label is a sub-cell label of a parent that split |
| Refinement.RunPrefixOk | src/integration_2d/integrators/hierarchic_integrator.rs:149-239 | the walk up to step n succeeds exactly when every leaf visited so far has a defined outcome |
| Refinement.RunPrefixErrorStays | src/integration_2d/integrators/hierarchic_integrator.rs:149-239 | once a visit panics, every longer walk ends with that same panic |
| Refinement.ConsolidatedPassKeepsCache | src/integration_2d/integrators/hierarchic_integrator.rs:191 | a consolidated integrator leaves the cache unchanged and reports no change |
| Refinement.PassFixedPoint | src/integration_2d/integrators/hierarchic_integrator.rs:145-151 | after a pass that splits nothing, another pass gives the same cache and total |
| Refinement.ConvergeFixedPoint | src/integration_2d/integrators/hierarchic_integrator.rs:149-241 | the returned total comes from a well-formed cache on which one more pass changes nothing |
| Refinement.ConvergeConsolidated | src/integration_2d/integrators/hierarchic_integrator.rs:149-241 | a consolidated integrator makes one pass and keeps its cache |
| Refinement.ConvergeExtends | src/integration_2d/integrators/hierarchic_integrator.rs:149-241 | the loop only ever adds nodes, never relabels or re-parents them |
| Hierarchic2D.Hierarchic2DIntegrator.Dupe | src/integration_2d/integrators/hierarchic_integrator.rs:119-125 | the copy has the same base rule, consolidation flag and precision |
| Hierarchic2D.Subdivision | src/integration_2d/integrators/hierarchic_integrator.rs:23-50 | there is a 3x3 table exactly for labels 1-4 |
| Hierarchic2D.SubdivisionQuarters | src/integration_2d/integrators/hierarchic_integrator.rs:23-50 | each table is barycentric, with entries in {0, 1/2, 1}, and has determinant 1/4 (a quarter of the triangle) |
| Hierarchic2D.Chain | src/integration_2d/integrators/hierarchic_integrator.rs:55-59 | the product over the first n labels succeeds iff all of them are 1-4, and is 3x3 |
| Hierarchic2D.GetTransformation | src/integration_2d/integrators/hierarchic_integrator.rs:52-61 | the loop returns `Transformation`; the empty vector is the `len() - 1` underflow |
| Hierarchic2D.ChainErrorStays | src/integration_2d/integrators/hierarchic_integrator.rs:55-59 | an invalid label fails every longer product the same way |
| Hierarchic2D.RootTransformation | src/integration_2d/integrators/hierarchic_integrator.rs:52-61 | the root's vector gives the identity |
| Hierarchic2D.ChildTransformation | src/integration_2d/integrators/hierarchic_integrator.rs:196-201 | prepending a child label composes the parent's map with the child's table on the right |
| Hierarchic2D.ChainChild | src/integration_2d/integrators/hierarchic_integrator.rs:55-59 | the inductive form of the composition above |
| Hierarchic2D.ChainBarycentric | src/integration_2d/integrators/hierarchic_integrator.rs:55-59 | every composed map is barycentric |
| Hierarchic2D.Estimate | src/integration_2d/integrators/hierarchic_integrator.rs:181-188 | the leaf estimate succeeds iff its labels have tables and the outer transformation has three columns |
| Hierarchic2D.EstimateCell | src/integration_2d/integrators/hierarchic_integrator.rs:181-188 | the method computes `Estimate` |
| Hierarchic2D.RootEstimate | src/integration_2d/domain.rs:41-47 | at the root with the identity, the estimate is the base rule on the whole triangle |
| Hierarchic2D.RefinedEstimate | src/integration_2d/integrators/hierarchic_integrator.rs:193-208 | the child loop computes the sum over sub-cells 1-4 |
| Hierarchic2D.Hierarchic2DIntegratorData.NewCache | src/integration_2d/integrators/hierarchic_integrator.rs:82-90 | not cached, arena with the root only |
| Hierarchic2D.Hierarchic2DIntegratorData.MakeLeafsUnchecked | src/integration_2d/integrators/hierarchic_integrator.rs:92-109 | the walk sets the arena to `UncheckLeaves` of the old one |
| Hierarchic2D.Hierarchic2DIntegratorData.TreeSize | src/integration_2d/integrators/hierarchic_integrator.rs:111-113 | the node count, at least 1 in a valid cache |
| Hierarchic2D.Hierarchic2DIntegratorData.AppendSubdivision | src/integration_2d/integrators/hierarchic_integrator.rs:214-223 | appends children labelled 1-4 to the node |
| Hierarchic2D.Hierarchic2DIntegratorData.VisitCell | src/integration_2d/integrators/hierarchic_integrator.rs:163-233 | processing one walked node equals the shared `Visit` |
| Hierarchic2D.Hierarchic2DIntegratorData.RunPass | src/integration_2d/integrators/hierarchic_integrator.rs:151-236 | one iteration of the outer loop equals the shared `Pass` |
| Hierarchic2D.IntegrateOverDomain | src/integration_2d/integrators/hierarchic_integrator.rs:127-242 | builds the cache on first use, then returns what the shared loop `Converge` returns and leaves its cache behind |
| Hierarchic2D.PathTransformationDefined | src/integration_2d/integrators/hierarchic_integrator.rs:181 | every node of a cache the integrator built has a defined transformation |
| Hierarchic2D.LeafNeverFails | src/integration_2d/integrators/hierarchic_integrator.rs:181-231 | no leaf's estimate or refinement panics |
| Hierarchic2D.PassNeverFails | src/integration_2d/integrators/hierarchic_integrator.rs:149-239 | a pass never panics and keeps every label valid |
| Hierarchic2D.PassKeepsLabelsValid | src/integration_2d/integrators/hierarchic_integrator.rs:214-223 | a successful pass appends only children labelled 1-4, so every label below the root stays valid |
| Hierarchic2D.ConvergeNeverFails | src/integration_2d/integrators/hierarchic_integrator.rs:127-242 | `integrate_over_domain` never panics on a transformation with three columns |
| Hierarchic3D.IsTetrahedronDomain | src/integration_3d/integrators/hierarchic_integrator.rs:305-310 | labels up to 19 are accepted (tetrahedron iff below 13), and larger ones panic with that label |
| Hierarchic3D.IsOctahedronDomain | src/integration_3d/integrators/hierarchic_integrator.rs:313-315 | panics exactly where the tetrahedron test does, and otherwise is its negation |
| Hierarchic3D.DomainNumbersMatchTables | src/integration_3d/integrators/hierarchic_integrator.rs:305-315 | a label in 1-19 is a tetrahedron iff its table has 4 columns, and an octahedron iff it has 6 |
| Hierarchic3D.CornerTable | src/integration_3d/integrators/hierarchic_integrator.rs:17-44 | corner tetrahedron k keeps vertex k and takes the midpoints of its three edges |
| Hierarchic3D.CornerVolume | src/integration_3d/integrators/hierarchic_integrator.rs:17-44 | each corrected corner table has determinant 1/8, so each corner tetrahedron has an eighth of its parent's volume |
| Hierarchic3D.OctahedralTable | src/integration_3d/integrators/hierarchic_integrator.rs:45-177 | the shapes of tables 5-19: 6x4 for the inner tetrahedra, 4x6 for the octahedron of a tetrahedron, 6x6 for the sub-octahedra |
| Hierarchic3D.OctaSub | src/integration_3d/integrators/hierarchic_integrator.rs:181-220 | each of the four octahedron pieces is a 6x4 selection table |
| Hierarchic3D.Subdivision | src/integration_3d/integrators/hierarchic_integrator.rs:15-179 | a table exists exactly for labels 1-19, with its shape by label; any other label is `NoTransformation` |
| Hierarchic3D.SubdivisionBarycentric | src/integration_3d/integrators/hierarchic_integrator.rs:15-179 | every table has columns summing to 1 and entries in {0, 1/2, 1} |
| Hierarchic3D.OctaSubSelects | src/integration_3d/integrators/hierarchic_integrator.rs:181-220 | column j of piece i is the unit vector of octahedron vertex `PieceVertex(i, j)` |
| Hierarchic3D.GetTransformation | src/integration_3d/integrators/hierarchic_integrator.rs:231-247 | the (corrected, root-first) loop returns `Transformation` |
| Hierarchic3D.Transformation | src/integration_3d/integrators/hierarchic_integrator.rs:231-247 | an empty vector panics; a defined map has four rows |
| Hierarchic3D.DescendErrorStays | src/integration_3d/integrators/hierarchic_integrator.rs:240-245 | a failing step fails every longer product the same way |
| Hierarchic3D.DescendPrefix | src/integration_3d/integrators/hierarchic_integrator.rs:240-245 | prepending a child label does not change the root-side partial products |
| Hierarchic3D.ChildTransformation | src/integration_3d/integrators/hierarchic_integrator.rs:428-434 | a child's map is the parent's map times the child's table |
| Hierarchic3D.DescendBarycentric | src/integration_3d/integrators/hierarchic_integrator.rs:240-245 | every defined composed map is barycentric |
| Hierarchic3D.RootTransformation | src/integration_3d/integrators/hierarchic_integrator.rs:231-247 | the root's vector gives the 4x4 identity |
| Hierarchic3D.BaseRule | src/integration_3d/integrators/quadrilaterial_integrator.rs:403-409 | the base rule accepts exactly 4x4 transformations and otherwise panics with the offending shape |
| Hierarchic3D.IntegrateTetrahedron | src/integration_3d/integrators/hierarchic_integrator.rs:249-268 | succeeds iff the transformation is 4x4, and otherwise panics with its shape |
| Hierarchic3D.OctahedronAsTetrahedra | src/integration_3d/integrators/hierarchic_integrator.rs:270-295 | the (corrected) octahedron integral succeeds iff the map is 4x6, and each piece's j-th vertex is the octahedron vertex `PieceVertex(i, j)` |
| Hierarchic3D.IntegrateOctahedronCell | src/integration_3d/integrators/hierarchic_integrator.rs:270-295 | the loop over the four pieces computes `IntegrateOctahedron` |
| Hierarchic3D.Estimate | src/integration_3d/integrators/hierarchic_integrator.rs:405-415 | the leaf estimate succeeds iff the labels have tables, the leaf label is legal, the outer map is 4x4, and the composed map has the column count of the cell's kind |
| Hierarchic3D.EstimateCell | src/integration_3d/integrators/hierarchic_integrator.rs:405-415 | the method computes `Estimate` |
| Hierarchic3D.RootEstimate | src/integration_3d/domain.rs:107-124 | at the root with the identity, the estimate is `integrate_simplex` with the base rule |
| Hierarchic3D.ChildLabels | src/integration_3d/integrators/hierarchic_integrator.rs:424-490 | a tetrahedron has the 5 sub-cells 1-4 and 13, and an octahedron the 14 sub-cells 5-12 and 14-19 |
| Hierarchic3D.ChildEstimates | src/integration_3d/integrators/hierarchic_integrator.rs:427-438 | each child loop extends the sub-cell sum by its run of consecutive labels |
| Hierarchic3D.AddChildEstimate | src/integration_3d/integrators/hierarchic_integrator.rs:427-440 | one iteration of a child loop adds the estimate of the sub-cell with the next label, or fails exactly as that estimate does |
| Hierarchic3D.DecideCell | src/integration_3d/integrators/hierarchic_integrator.rs:407-496 | the leaf estimate and, for an unchecked leaf of an integrator that is not consolidated, the sub-cell sum and the comparison against the precision compute the shared decision `Decide` |
| Hierarchic3D.RefinedEstimate | src/integration_3d/integrators/hierarchic_integrator.rs:422-491 | the child loops compute the sum over all sub-cells of the leaf's kind |
| Hierarchic3D.Hierarchic3DIntegratorData.NewCache | src/integration_3d/integrators/hierarchic_integrator.rs:340-348 | not cached, arena with the root only |
| Hierarchic3D.Hierarchic3DIntegratorData.AppendLabels | src/integration_3d/integrators/hierarchic_integrator.rs:498-534 | each append loop adds its run of labels as children |
| Hierarchic3D.Hierarchic3DIntegratorData.Subdivide | src/integration_3d/integrators/hierarchic_integrator.rs:497-535 | the node gets exactly the children of its kind, in source order |
| Hierarchic3D.Hierarchic3DIntegratorData.VisitCell | src/integration_3d/integrators/hierarchic_integrator.rs:390-546 | processing one walked node equals the shared `Visit` |
| Hierarchic3D.Hierarchic3DIntegratorData.RunPass | src/integration_3d/integrators/hierarchic_integrator.rs:377-550 | one iteration of the outer loop equals the shared `Pass` |
| Hierarchic3D.IntegrateOverDomain | src/integration_3d/integrators/hierarchic_integrator.rs:354-555 | builds the cache on first use, then returns what `Converge` returns and leaves its cache behind |
| Hierarchic3D.ChildMap | src/integration_3d/integrators/hierarchic_integrator.rs:428-434 | a child of a well-mapped cell, carrying a label of its kind, is well mapped |
| Hierarchic3D.PathMap | src/integration_3d/integrators/hierarchic_integrator.rs:405-415 | every node of a cache the integrator built has a transformation whose shape fits its kind |
| Hierarchic3D.LeafNeverFails | src/integration_3d/integrators/hierarchic_integrator.rs:405-491 | no leaf's estimate or refinement panics (corrected model) |
| Hierarchic3D.PassNeverFails | src/integration_3d/integrators/hierarchic_integrator.rs:376-552 | a pass never panics and keeps every label consistent with its parent's kind (corrected model) |
| Hierarchic3D.ConvergeNeverFails | src/integration_3d/integrators/hierarchic_integrator.rs:354-555 | `integrate_over_domain` never panics on a 4x4 transformation (corrected model) |
| Hierarchic3D.LeafFirstPanicsInsideOctahedron | src/integration_3d/integrators/hierarchic_integrator.rs:240-245 | as written, the vector `[l, 13, 0]` panics with a shape mismatch for every sub-cell label l of the octahedron (5-12 and 14-19), while the corrected product is defined |
| Hierarchic3D.GetTransformationAsWritten | src/integration_3d/integrators/hierarchic_integrator.rs:231-247 | the as-written loop computes the leaf-first product `TransformationAsWritten` |
| Hierarchic3D.OctahedronAsWrittenPanics | src/integration_3d/integrators/hierarchic_integrator.rs:285-292 | as written, integrating an octahedron always panics, and on a 4x6 map with the 6x6 shape |
| Hierarchic3D.FirstPassAsWrittenPanics | src/integration_3d/integrators/hierarchic_integrator.rs:417-456 | as written, the first non-consolidated pass panics at the root's octahedral child |
| Hierarchic3D.CornerTablesAsWritten | src/integration_3d/integrators/hierarchic_integrator.rs:31-37 | corner tables 1, 2 and 4 are as written; table 3's column 1 is the midpoint of vertices 1 and 4 instead of 2 and 3 |
| Hierarchic3D.AsWrittenCornerIsFlat | src/integration_3d/integrators/hierarchic_integrator.rs:31-37 | as written, table 3 maps every point to second barycentric coordinate 0, so its cell is flat; the corrected table maps its vertex 1 to coordinate 1/2 there |
| Hierarchic3D.AsWrittenCornerVolume | src/integration_3d/integrators/hierarchic_integrator.rs:31-37 | as written, table 3 has determinant 0, so the cell it maps to has no volume |

## Left out

- The base quadrature rules (Dunavant, quadrilateral, edge subdivision) are
  parameters. A base rule is a function from a transformation, an integrand
  and a simplex to a value. The 3D base rule's 4x4 shape check is kept,
  because finding 2 depends on it.
- Hierarchic3D.BaseRule: the generic 3D base rule `I` is fixed to one that
  refuses every map that is not 4x4, as the quadrilateral rule does
  (src/integration_3d/integrators/quadrilaterial_integrator.rs:403-409).
  Other base rules are not modelled. The `OrientationChecker`
  (`Visual3D`) accepts any map with 4 columns and at least 4 rows.
  Finding 2 still holds for it, because the 6x6 piece fails its 4-column
  `dot`.
- The edge-subdivision integrators, `src/domain.rs`, `src/main.rs`,
  `src/problems.rs` and `src/integration_tests.rs` are not part of this model.
- Floating point: all `f64` arithmetic is modelled with exact reals. Rounding
  and NaN are not modelled.
- The generic result type (`T::Return` with its additive neutral element and
  `distance`) is modelled as `real`. Its neutral element is `0.0`, and the
  distance is `|a - b|`.
- indextree and ndarray are modelled by the `CacheTree` arena and the
  `Matrices` datatype. `NodeId` is an index, and the root is always index 0.
- The walk over `NodeEdge`s is modelled as the post-order of the tree as it
  stood at the start of the pass, with leaf-ness re-checked at each visit.
  Children appended to the node being visited come after every edge the
  source still has to visit.
- `RefCell` interior mutability of the history decorators is modelled as a
  class field that the evaluating method modifies.
- `new_constant` (src/integration_2d/functions.rs:17-22) is the decorator
  constructor applied to `Constant`. `Hierarchic*Integrator::new` is the
  datatype constructor.
- Hierarchic2D.IntegrateOverDomain: the outer `while state_changed` loop is
  bounded by a `fuel` argument. When the fuel runs out, the run is reported
  as unfinished. Termination of the source's loop is not proved.
- Hierarchic3D.IntegrateOverDomain: bounded by `fuel` in the same way.
- Common.Get: `IntegratorDummy::get` only builds a unit value, so it has no
  contract.
- Hierarchic3D.SubdivisionBarycentric: it states that each table is
  barycentric. It does not state the volume of the sub-cell. Only tables
  1-4 are 4x4, and their determinants are stated by
  `Hierarchic3D.CornerVolume`. Tables 5-19 are 6x4, 4x6 or 6x6 maps to or
  from the six octahedron coordinates, which a 4x4 determinant does not
  measure, so their volumes are not stated.
- `det3x3` and `det4x4` in src/integration_3d/domain.rs:8-44 are private
  copies of `det3x3` and `det4x4` in src/common.rs:11-47. They differ only
  in spacing and in how the literal -1.0 is spelled, so they are modelled once, by
  `Common.Det3x3` and `Common.Det4x4`, and `Domain3D.GetVolume` calls
  `Common.Det3x3`.
- Hierarchic3D.Hierarchic3DIntegratorData.VisitCell: in the source, a
  tetrahedron leaf's child loops call `integrate_tetrahedron` and
  `integrate_octahedron` directly. The model reuses the leaf estimate on the
  child's label path, which makes the same tetrahedron/octahedron choice
  from the label.
- `make_leafs_unchecked` exists only in the 2D cache; the 3D cache has no
  such operation.

## Findings

| source | as written | input that shows it | evidently intended | confidence | as-written member | corrected member |
|---|---|---|---|---|---|---|
| src/integration_3d/integrators/hierarchic_integrator.rs:240-245 | `get_transformation` multiplies `result.dot(T[label])` leaf first, so the leaf's table is the leftmost factor | ancestor vector `[5, 13, 0]` (inner tetrahedron 5 of the root's octahedron): the identity (4x4) times table 5 (6x4) is a shape mismatch panic | compose from the root down, `T[root child] · … · T[leaf]`, as the 2D integrator does | not executed | Hierarchic3D.LeafFirstPanicsInsideOctahedron | Hierarchic3D.GetTransformation |
| src/integration_3d/integrators/hierarchic_integrator.rs:285-292 | each octahedron piece is `octa_sub[i].dot(transformation)`, a 6x4 times 4x6 product | any 4x6 octahedron map, e.g. the root's child 13: the piece is 6x6 and the base rule panics | `transformation.dot(octa_sub[i])`, a 4x4 map of one tetrahedral piece | not executed | Hierarchic3D.OctahedronAsWrittenPanics | Hierarchic3D.OctahedronAsTetrahedra |
| src/integration_3d/integrators/hierarchic_integrator.rs:31-37 | corner table 3 has column `[0.5, 0, 0, 0.5]` and an all-zero second row | any point x: its image has second barycentric coordinate 0, so the corner cell at vertex 3 is flat (zero volume) | column 1 is `[0, 0.5, 0.5, 0]`, the midpoint of vertices 2 and 3, making the corner tetrahedron at vertex 3 | not executed | Hierarchic3D.AsWrittenCornerVolume | Hierarchic3D.CornerVolume |
