/** The labels a maze cell can hold, and the coordinate pair that names a cell.
    The file defining the full set of labels is not part of this model. Four
    constructors below name the labels the modelled code uses: the grid model
    tests for BEGIN and END and writes UNVISITED_CELL, and the wall generator
    writes WALL. The fifth, `Marker`, stands for every other label (visited,
    frontier, path, ...) that generators and solvers write. */
module CellState {

  datatype State =
    | Wall
    | UnvisitedCell
    | Begin
    | End
    | Marker(name: string)

  /** The two labels a state-change request may not overwrite. */
  predicate IsEndpoint(s: State) {
    s == Begin || s == End
  }

  /** An (x, y) coordinate: x selects the row, y the entry within it. */
  datatype Indices = Indices(x: int, y: int)

  /** An optional value, standing for a field that may be undefined. */
  datatype Option<T> = None | Some(value: T)
}
