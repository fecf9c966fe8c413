# Maze grid model in Dafny

This project models the shared grid of a maze generator and solver (mazeTS).
It covers two parts. The first is the grid `Model`: it owns the cell matrix,
the optional `begin` and `end` coordinates and an ordered list of listeners,
and it relays each change to the listeners. The second is the wall-fill batch
generator, which builds a `size × size` matrix of walls.

- `cell_state.dfy` (module `CellState`): the cell labels `State`, the coordinate
  pair `Indices` and `Option`. The file that defines all cell labels is not part
  of this model. `State` has the four labels the modelled code uses: the grid
  tests for `Begin` and `End` and writes `UnvisitedCell`, and the wall
  generator writes `Wall`. A fifth constructor, `Marker(name)`, stands for every
  other label.
- `grid.dfy` (module `Grid`): the matrix is a sequence of row arrays, and cells
  are written in place. `Write` gives the labels after one cell write. It also
  covers the case where two rows are the same array, because `regenerate`
  stores the caller's rows by reference.
- `model.dfy` (module `GridModel`): class `Model`, with the fields `model`,
  `begin`, `end` and `listeners`. Two ghost fields go with them: `cells`, the
  labels the row arrays hold (tied to them by `Valid()`), and `log`, every
  listener call made so far, oldest first. Each `forEach` over the listeners
  is a loop that appends one event per listener to the log. `UpdateEffect`
  states what one `updateModel` call does, as a function of the state before
  the call. `UpdateModel` is proved to do exactly that. The lemmas then prove
  the promised properties about `UpdateEffect`.
- `wall_generator.dfy` (module `WallGenerator`): `Create`, with nested loops
  over freshly allocated row arrays.

A caller might expect `updateModel` to ignore an out-of-range coordinate. The
code has no bounds check: it indexes `model[x][y]` directly, and only its
callers check bounds (public/ts/maze-controller.ts:61, :74 and :81). So
`UpdateModel` requires `(x, y)` to be in range. It also requires the endpoint it would demote to be in range,
but only on the path where the code dereferences it. The code's `!this.model`
guard can never fire, because the matrix is always an array. It is not
modelled.

A stored endpoint can be stale after `regenerate`, which leaves `begin` and
`end` untouched. In that case setting that endpoint again writes the cell and
then demotes the same cell. `StaleBeginDemotesNewCell` states this. More
generally, the stale cell is demoted to UNVISITED_CELL whatever it holds now:
if the stale `begin` names the cell that now holds END, setting BEGIN elsewhere
erases that END while `end` still names it. `StaleBeginErasesEnd` states this.
The invariant-preservation lemma therefore assumes the invariant on entry.

`regenerate` stores the caller's row arrays by reference, and nothing stops two
rows from being the same array. A write through one such row shows in the
other, so `updateModel` can then put BEGIN (or END) in two cells at once and
break the single-owner invariant. `SharedRowDuplicatesBegin` exhibits this. The
whole-call lemmas below therefore hold when no two rows are the same array,
which `Consistent()` includes and `WallGenerator.Create` guarantees.

## Model

| member | source | states |
|---|---|---|
| `GridModel.Model.constructor` | public/ts/model/model.ts:12-15 | starts with an empty matrix, no begin or end, no listeners and no calls made; the endpoint invariant holds |
| `GridModel.Model.Regenerate` | public/ts/model/model.ts:17-20 | the matrix becomes exactly the given rows (the same arrays), each listener in list order receives one snapshot equal to the new labels, and begin, end and the listener list are unchanged |
| `GridModel.Model.NotifyUpdate` | public/ts/model/model.ts:46 | one onUpdate(x, y, s) per listener is appended to the log, in list order, and nothing else changes |
| `GridModel.Model.SetCell` | public/ts/model/model.ts:29 | an in-place write of one cell; the labels afterwards are `Write` of the labels before, so every row that is the same array sees the write |
| `GridModel.Model.DemoteHolder` | public/ts/model/model.ts:31-35 | if an endpoint is recorded, its cell becomes UnvisitedCell and each listener is told of that demotion; an unset endpoint changes nothing |
| `GridModel.Model.DesignateEndpoint` | public/ts/model/model.ts:30-45 | for END (or BEGIN), the previous holder is demoted first and then `end` (or `begin`) is set to (x, y); any other label leaves both endpoints and the log alone |
| `GridModel.Model.UpdateModel` | public/ts/model/model.ts:22-47 | the new labels, endpoints and calls are exactly `UpdateEffect` of the old state; the row arrays and listeners are unchanged; a state that satisfied the single-owner invariant, with no two rows the same array, still satisfies it |
| `GridModel.Model.AddListener` | public/ts/model/model.ts:49-51 | the listener is appended at the end, earlier listeners keep their order, and the matrix, endpoints and log are unchanged |
| `GridModel.BroadcastInOrder` | public/ts/model/model.ts:46 | a round of notifications has one event per listener, and the k-th event goes to the k-th registered listener |
| `GridModel.ResetsInOrder` | public/ts/model/model.ts:19 | a reset sends one snapshot per listener, and the k-th goes to the k-th registered listener |
| `GridModel.BroadcastAppend` | public/ts/model/model.ts:49-51 | after a listener is appended, each round first notifies the earlier listeners as before and then the new one |
| `GridModel.ResetsAppend` | public/ts/model/model.ts:49-51 | after a listener is appended, a reset first sends the earlier listeners their snapshots as before and then the new one |
| `GridModel.ProtectedCellIsNoOp` | public/ts/model/model.ts:26-28 | on a cell holding BEGIN or END, the labels and both endpoints are unchanged and no listener is called |
| `GridModel.PlainUpdate` | public/ts/model/model.ts:26-46 | a label other than BEGIN/END on an unprotected cell changes that one cell only, keeps begin and end, and makes exactly one onUpdate(x, y, s) per listener, when no two rows are the same array |
| `GridModel.SetBeginCells` | public/ts/model/model.ts:38-45 | setting BEGIN writes (x, y), turns the previous begin cell (if any) into UnvisitedCell and sets begin to (x, y); end is unchanged, when no two rows are the same array |
| `GridModel.SetEndCells` | public/ts/model/model.ts:30-37 | setting END writes (x, y), turns the previous end cell (if any) into UnvisitedCell and sets end to (x, y); begin is unchanged, when no two rows are the same array |
| `GridModel.SharedRowDuplicatesBegin` | public/ts/model/model.ts:17-29 | when regenerate was given one array as both rows of a wall matrix, setting BEGIN at (0, 0) puts BEGIN in both cells, so the single-owner invariant that held before fails after |
| `GridModel.DemotionPrecedesAssignment` | public/ts/model/model.ts:30-46 | for a new BEGIN or END with a previous holder, the first round of events (one per listener, in order) is the demotion and the second round is the assignment; with no previous holder there is only the second round |
| `GridModel.StaleBeginDemotesNewCell` | public/ts/model/model.ts:39-44 | with a stale begin already naming (x, y), setting BEGIN there leaves that cell UnvisitedCell while begin names it, which breaks the invariant |
| `GridModel.StaleBeginErasesEnd` | public/ts/model/model.ts:38-44 | when a stale begin names the cell holding END, setting BEGIN at another cell turns that END cell into UnvisitedCell while end still names it, so the END invariant that held before fails after |
| `GridModel.UpdatePreservesOwnership` | public/ts/model/model.ts:22-47 | if, before the call, a cell holds BEGIN exactly when begin names it (and likewise for END), the same holds after any updateModel call, when no two rows are the same array |
| `GridModel.OwnsAfterWrite` | public/ts/model/model.ts:29 | writing a label other than an endpoint's over a cell that does not hold it keeps that endpoint's invariant |
| `GridModel.OwnsAfterTransfer` | public/ts/model/model.ts:29-44 | writing an endpoint label at a new cell and demoting the old holder leaves exactly the new cell holding it |
| `GridModel.OwnerIsUnique` | public/ts/model/model.ts:22-47 | under the invariant, at most one cell holds a given endpoint label, and that cell is the recorded one |
| `GridModel.HolderHoldsLabel` | public/ts/model/model.ts:22-47 | under the invariant, a recorded endpoint's cell holds that endpoint's label |
| `GridModel.AllWallsOwnership` | public/ts/model/model.ts:17-20 | for a matrix of walls only, the endpoint invariant holds exactly when the endpoint is unset, so regenerate does not re-establish a recorded endpoint |
| `Grid.WriteDistinct` | public/ts/model/model.ts:29 | when no two rows are the same array, an in-place write changes exactly cell (x, y) |
| `WallGenerator.Create` | public/ts/generators/batch/wall-generator.ts:6-16 | the result has max(size, 0) rows and each row has that many entries; every cell is WALL; each row is a freshly allocated array and no two rows are the same array; size ≤ 0 gives the empty matrix |

## Left out

- The controller (`public/ts/maze-controller.ts`): DOM event wiring, the drag flag and panel toggling. Its bounds checks are what meet the in-range precondition of `UpdateModel`.
- The view and the listener implementations: listeners are opaque ids. A listener that calls back into the model during a notification is not modelled.
- `structuredClone`: the snapshot in a `Reset` event is a value (`seq<seq<State>>`), so it cannot be affected by later writes.
- The depth-first and Kruskal generators and the BFS and A* solvers, with their randomness: their source is not part of this model.
- Out-of-range `updateModel` calls: the code indexes the matrix without a check, so they are excluded by precondition, not modelled as a no-op.
- Writes to the matrix by anyone other than the model: `regenerate` keeps the caller's arrays (public/ts/model/model.ts:18). If the caller changes a row afterwards, `Valid()` no longer ties `cells` to the arrays. The outer array is shared with the caller too, but the model holds it as an immutable `seq`, so a caller that adds, removes or replaces rows is not modelled.
- JavaScript `number` becomes Dafny `int` for `size`, `x` and `y`, so fractional values are not modelled. A fractional size such as 2.5 builds 3 rows of 3 walls (public/ts/generators/batch/wall-generator.ts:9-13). A fractional x makes `model[x]` undefined and the call throws (public/ts/model/model.ts:26). A fractional y writes a property that is not an index (public/ts/model/model.ts:29). The callers shown pass `size`, `x` and `y` on unchanged from code outside this model (public/ts/maze-controller.ts:20, :27-28); nothing shown makes them fractional.
- The listener callbacks themselves are recorded only in a ghost event log, not performed.
- `WallGenerator.Create`: JavaScript grows each row by `push`. Here each row is allocated at its final length and filled entry by entry in the same order.
