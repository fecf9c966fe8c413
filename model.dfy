/** The grid model: it owns the cell matrix, the optional begin and end
    coordinates and the ordered list of listeners, and relays every change
    of the matrix to the listeners. Listeners are opaque here; what they are
    told is recorded in a ghost log of events, in the order the calls are made. */
module GridModel {
  import opened CellState
  import opened Grid

  /** A registered listener, known only by its identity. */
  type ListenerId = nat

  /** One call made on a listener: onUpdate(x, y, state) or onReset(snapshot). */
  datatype Event =
    | Update(listener: ListenerId, x: int, y: int, state: State)
    | Reset(listener: ListenerId, snapshot: seq<seq<State>>)

  /** One onUpdate(x, y, s) call per listener, in list order. */
  function Broadcast(ls: seq<ListenerId>, x: int, y: int, s: State): (events: seq<Event>) {
    if ls == [] then [] else [Update(ls[0], x, y, s)] + Broadcast(ls[1..], x, y, s)
  }

  /** One onReset(snapshot) call per listener, in list order. */
  function Resets(ls: seq<ListenerId>, snapshot: seq<seq<State>>): (events: seq<Event>) {
    if ls == [] then [] else [Reset(ls[0], snapshot)] + Resets(ls[1..], snapshot)
  }

  /** The single-owner invariant for one endpoint label `s`: a cell holds `s`
      exactly when `holder` points at it, and a recorded holder lies in the grid. */
  predicate Owns(g: seq<seq<State>>, holder: Option<Indices>, s: State) {
    (holder.Some? ==> InGrid(g, holder.value)) &&
    forall i, j :: 0 <= i < |g| && 0 <= j < |g[i]| ==>
      (g[i][j] == s <==> holder == Some(Indices(i, j)))
  }

  /** What one updateModel call leaves behind: the labels, the two endpoints,
      and the listener calls it made. */
  datatype Effect = Effect(cells: seq<seq<State>>, begin: Option<Indices>, end: Option<Indices>, events: seq<Event>)

  /** Demoting the previous holder of an endpoint label, if there is one:
      its cell becomes UnvisitedCell and every listener is told so. */
  function Demote(rows: seq<array<State>>, g: seq<seq<State>>, holder: Option<Indices>, ls: seq<ListenerId>): (r: (seq<seq<State>>, seq<Event>))
    requires |rows| == |g|
    requires holder.Some? ==> InGrid(g, holder.value)
  {
    match holder
    case None => (g, [])
    case Some(p) => (Write(rows, g, p.x, p.y, UnvisitedCell), Broadcast(ls, p.x, p.y, UnvisitedCell))
  }

  /** The endpoint bookkeeping of updateModel, on the labels `g` as they are
      once (x, y) has been written: a new END or BEGIN demotes the previous
      holder and is recorded; any other label leaves both endpoints alone. */
  function Designation(rows: seq<array<State>>, g: seq<seq<State>>, b: Option<Indices>, e: Option<Indices>,
                       ls: seq<ListenerId>, x: int, y: int, s: State): (r: Effect)
    requires |rows| == |g|
    requires s == End && e.Some? ==> InGrid(g, e.value)
    requires s == Begin && b.Some? ==> InGrid(g, b.value)
  {
    var here := Some(Indices(x, y));
    if s == End then
      var (cells, demotion) := Demote(rows, g, e, ls);
      Effect(cells, b, here, demotion)
    else if s == Begin then
      var (cells, demotion) := Demote(rows, g, b, ls);
      Effect(cells, here, e, demotion)
    else
      Effect(g, b, e, [])
  }

  /** updateModel(x, y, s) on the matrix with rows `rows` and labels `g`,
      endpoints `b` and `e` and listeners `ls`. A demotion target is
      dereferenced only when the call gets that far, so only then must it lie
      in the grid. */
  function UpdateEffect(rows: seq<array<State>>, g: seq<seq<State>>, b: Option<Indices>, e: Option<Indices>,
                        ls: seq<ListenerId>, x: int, y: int, s: State): (r: Effect)
    requires |rows| == |g| && InGrid(g, Indices(x, y))
    requires !IsEndpoint(g[x][y]) && s == End && e.Some? ==> InGrid(g, e.value)
    requires !IsEndpoint(g[x][y]) && s == Begin && b.Some? ==> InGrid(g, b.value)
  {
    if IsEndpoint(g[x][y]) then Effect(g, b, e, [])
    else
      var d := Designation(rows, Write(rows, g, x, y, s), b, e, ls, x, y, s);
      Effect(d.cells, d.begin, d.end, d.events + Broadcast(ls, x, y, s))
  }

  /** Appending the demotion round and then the assignment round to the log
      is appending the whole call's events at once. Stated apart from
      UpdateModel so that its proof does not reason about sequences there. */
  lemma AppendAssociative(a: seq<Event>, b: seq<Event>, c: seq<Event>)
    ensures (a + b) + c == a + (b + c)
  {
  }

  /** Listeners are called in registration order, exactly once each. */
  lemma {:induction false} BroadcastInOrder(ls: seq<ListenerId>, x: int, y: int, s: State)
    ensures |Broadcast(ls, x, y, s)| == |ls|
    ensures forall k :: 0 <= k < |ls| ==> Broadcast(ls, x, y, s)[k] == Update(ls[k], x, y, s)
  {
    if ls != [] {
      BroadcastInOrder(ls[1..], x, y, s);
    }
  }

  /** Every listener gets one snapshot, in registration order. */
  lemma {:induction false} ResetsInOrder(ls: seq<ListenerId>, snapshot: seq<seq<State>>)
    ensures |Resets(ls, snapshot)| == |ls|
    ensures forall k :: 0 <= k < |ls| ==> Resets(ls, snapshot)[k] == Reset(ls[k], snapshot)
  {
    if ls != [] {
      ResetsInOrder(ls[1..], snapshot);
    }
  }

  /** A listener registered later is told after all the earlier ones, which
      are told as before. */
  lemma {:induction false} BroadcastAppend(ls: seq<ListenerId>, l: ListenerId, x: int, y: int, s: State)
    ensures Broadcast(ls + [l], x, y, s) == Broadcast(ls, x, y, s) + [Update(l, x, y, s)]
  {
    if ls != [] {
      assert (ls + [l])[1..] == ls[1..] + [l];
      BroadcastAppend(ls[1..], l, x, y, s);
    }
  }

  lemma {:induction false} ResetsAppend(ls: seq<ListenerId>, l: ListenerId, snapshot: seq<seq<State>>)
    ensures Resets(ls + [l], snapshot) == Resets(ls, snapshot) + [Reset(l, snapshot)]
  {
    if ls != [] {
      assert (ls + [l])[1..] == ls[1..] + [l];
      ResetsAppend(ls[1..], l, snapshot);
    }
  }

  /** A cell holding BEGIN or END is left alone: no label, no endpoint and no
      listener call changes. */
  lemma ProtectedCellIsNoOp(rows: seq<array<State>>, g: seq<seq<State>>, b: Option<Indices>, e: Option<Indices>,
                            ls: seq<ListenerId>, x: int, y: int, s: State)
    requires |rows| == |g| && InGrid(g, Indices(x, y)) && IsEndpoint(g[x][y])
    ensures UpdateEffect(rows, g, b, e, ls, x, y, s) == Effect(g, b, e, [])
  {
  }

  /** Any other label on an unprotected cell changes that one cell only, keeps
      both endpoints and makes one onUpdate(x, y, s) call per listener. */
  lemma PlainUpdate(rows: seq<array<State>>, g: seq<seq<State>>, b: Option<Indices>, e: Option<Indices>,
                    ls: seq<ListenerId>, x: int, y: int, s: State)
    requires |rows| == |g| && DistinctRows(rows) && InGrid(g, Indices(x, y))
    requires !IsEndpoint(g[x][y]) && !IsEndpoint(s)
    ensures var r := UpdateEffect(rows, g, b, e, ls, x, y, s);
      r.cells == Set(g, Indices(x, y), s) && r.begin == b && r.end == e && r.events == Broadcast(ls, x, y, s)
  {
    WriteDistinct(rows, g, x, y, s);
  }

  /** Setting BEGIN (the same holds of END with the roles of the two fields
      swapped): the previous begin cell, if any, becomes UnvisitedCell after
      (x, y) is written, and begin then names (x, y). */
  lemma SetBeginCells(rows: seq<array<State>>, g: seq<seq<State>>, b: Option<Indices>, e: Option<Indices>,
                      ls: seq<ListenerId>, x: int, y: int)
    requires |rows| == |g| && DistinctRows(rows) && InGrid(g, Indices(x, y)) && !IsEndpoint(g[x][y])
    requires b.Some? ==> InGrid(g, b.value)
    ensures var r := UpdateEffect(rows, g, b, e, ls, x, y, Begin);
      var written := Set(g, Indices(x, y), Begin);
      r.begin == Some(Indices(x, y)) && r.end == e &&
      (b == None ==> r.cells == written) &&
      (b.Some? ==> r.cells == Set(written, b.value, UnvisitedCell))
  {
    WriteDistinct(rows, g, x, y, Begin);
    if b.Some? {
      WriteDistinct(rows, Set(g, Indices(x, y), Begin), b.value.x, b.value.y, UnvisitedCell);
    }
  }

  /** Setting END: the previous end cell, if any, becomes UnvisitedCell after
      (x, y) is written, and end then names (x, y). */
  lemma SetEndCells(rows: seq<array<State>>, g: seq<seq<State>>, b: Option<Indices>, e: Option<Indices>,
                    ls: seq<ListenerId>, x: int, y: int)
    requires |rows| == |g| && DistinctRows(rows) && InGrid(g, Indices(x, y)) && !IsEndpoint(g[x][y])
    requires e.Some? ==> InGrid(g, e.value)
    ensures var r := UpdateEffect(rows, g, b, e, ls, x, y, End);
      var written := Set(g, Indices(x, y), End);
      r.end == Some(Indices(x, y)) && r.begin == b &&
      (e == None ==> r.cells == written) &&
      (e.Some? ==> r.cells == Set(written, e.value, UnvisitedCell))
  {
    WriteDistinct(rows, g, x, y, End);
    if e.Some? {
      WriteDistinct(rows, Set(g, Indices(x, y), End), e.value.x, e.value.y, UnvisitedCell);
    }
  }

  /** A begin left pointing at (x, y) by an earlier regenerate, on a cell
      that no longer holds BEGIN: setting BEGIN there writes the cell and then
      demotes it again, so begin names a cell that is not BEGIN. */
  lemma StaleBeginDemotesNewCell(rows: seq<array<State>>, g: seq<seq<State>>, e: Option<Indices>,
                                 ls: seq<ListenerId>, x: int, y: int)
    requires |rows| == |g| && DistinctRows(rows) && InGrid(g, Indices(x, y)) && !IsEndpoint(g[x][y])
    ensures var r := UpdateEffect(rows, g, Some(Indices(x, y)), e, ls, x, y, Begin);
      r.begin == Some(Indices(x, y)) && r.cells[x][y] == UnvisitedCell && !Owns(r.cells, r.begin, Begin)
  {
    SetBeginCells(rows, g, Some(Indices(x, y)), e, ls, x, y);
  }

  /** A stale begin is demoted whatever its cell now holds: here it names the
      cell holding END, and setting BEGIN elsewhere erases that END. */
  lemma StaleBeginErasesEnd(a: array<State>, ls: seq<ListenerId>)
    ensures Owns([[End, Wall]], Some(Indices(0, 0)), End)
    ensures var r := UpdateEffect([a], [[End, Wall]], Some(Indices(0, 0)), Some(Indices(0, 0)), ls, 0, 1, Begin);
      r.cells == [[UnvisitedCell, Begin]] && r.end == Some(Indices(0, 0)) && !Owns(r.cells, r.end, End)
  {
    var w := Write([a], [[End, Wall]], 0, 1, Begin);
    assert w[0] == [End, Begin];
    var d := Write([a], w, 0, 0, UnvisitedCell);
    assert d[0] == [UnvisitedCell, Begin];
    var r := UpdateEffect([a], [[End, Wall]], Some(Indices(0, 0)), Some(Indices(0, 0)), ls, 0, 1, Begin);
    assert r.cells == d;
    assert r.cells[0][0] == UnvisitedCell;
  }

  /** regenerate stores the caller's rows by reference, so two rows may be
      one array. Writing BEGIN into one of them then shows BEGIN in both, and
      the single-owner invariant breaks although it held before the call. */
  lemma SharedRowDuplicatesBegin(a: array<State>, ls: seq<ListenerId>)
    ensures Owns([[Wall], [Wall]], None, Begin)
    ensures var r := UpdateEffect([a, a], [[Wall], [Wall]], None, None, ls, 0, 0, Begin);
      r.cells == [[Begin], [Begin]] && !Owns(r.cells, r.begin, Begin)
  {
    var w := Write([a, a], [[Wall], [Wall]], 0, 0, Begin);
    assert w[0] == [Begin] && w[1] == [Begin];
    assert w == [[Begin], [Begin]];
    var r := UpdateEffect([a, a], [[Wall], [Wall]], None, None, ls, 0, 0, Begin);
    assert r.cells == w;
    assert r.cells[1][0] == Begin;
  }

  /** Designating a new BEGIN or END: every listener hears of the demotion of
      the previous holder before any listener hears of the new assignment,
      both rounds in registration order. */
  lemma DemotionPrecedesAssignment(rows: seq<array<State>>, g: seq<seq<State>>, b: Option<Indices>, e: Option<Indices>,
                                   ls: seq<ListenerId>, x: int, y: int, s: State)
    requires |rows| == |g| && InGrid(g, Indices(x, y)) && !IsEndpoint(g[x][y]) && IsEndpoint(s)
    requires s == End && e.Some? ==> InGrid(g, e.value)
    requires s == Begin && b.Some? ==> InGrid(g, b.value)
    ensures var r := UpdateEffect(rows, g, b, e, ls, x, y, s);
      var previous := if s == Begin then b else e;
      match previous
      case None =>
        r.events == Broadcast(ls, x, y, s)
      case Some(p) =>
        |r.events| == 2 * |ls| &&
        (forall k :: 0 <= k < |ls| ==> r.events[k] == Update(ls[k], p.x, p.y, UnvisitedCell)) &&
        (forall k :: |ls| <= k < 2 * |ls| ==> r.events[k] == Update(ls[k - |ls|], x, y, s))
  {
    var previous := if s == Begin then b else e;
    if previous.Some? {
      var p := previous.value;
      BroadcastInOrder(ls, p.x, p.y, UnvisitedCell);
      BroadcastInOrder(ls, x, y, s);
    }
  }

  /** Writing a label other than `lab` over a cell that does not hold `lab`
      keeps the invariant for `lab`. */
  lemma OwnsAfterWrite(g: seq<seq<State>>, holder: Option<Indices>, lab: State, p: Indices, s: State)
    requires Owns(g, holder, lab) && InGrid(g, p) && g[p.x][p.y] != lab && s != lab
    ensures Owns(Set(g, p, s), holder, lab)
  {
    var g' := Set(g, p, s);
    forall i, j | 0 <= i < |g'| && 0 <= j < |g'[i]|
      ensures g'[i][j] == lab <==> holder == Some(Indices(i, j))
    {
      if i != p.x || j != p.y {
        assert g'[i][j] == g[i][j];
      }
    }
  }

  /** Writing `lab` at `p` and then demoting the previous holder moves the
      label to `p` and keeps the invariant for it. */
  lemma OwnsAfterTransfer(g: seq<seq<State>>, holder: Option<Indices>, lab: State, p: Indices)
    requires Owns(g, holder, lab) && InGrid(g, p) && g[p.x][p.y] != lab && lab != UnvisitedCell
    ensures var g1 := Set(g, p, lab);
      Owns(match holder case None => g1 case Some(q) => Set(g1, q, UnvisitedCell), Some(p), lab)
  {
    var g1 := Set(g, p, lab);
    var g2 := match holder case None => g1 case Some(q) => Set(g1, q, UnvisitedCell);
    forall i, j | 0 <= i < |g2| && 0 <= j < |g2[i]|
      ensures g2[i][j] == lab <==> Some(p) == Some(Indices(i, j))
    {
      if holder.Some? {
        var q := holder.value;
        assert q != p;
        if i == q.x && j == q.y {
          assert g2[i][j] == UnvisitedCell;
        } else if i != p.x || j != p.y {
          assert g2[i][j] == g[i][j];
        }
      } else if i != p.x || j != p.y {
        assert g2[i][j] == g[i][j];
      }
    }
  }

  /** The single-owner invariant for both endpoints survives every call that
      starts from it. */
  lemma UpdatePreservesOwnership(rows: seq<array<State>>, g: seq<seq<State>>, b: Option<Indices>, e: Option<Indices>,
                                 ls: seq<ListenerId>, x: int, y: int, s: State)
    requires |rows| == |g| && DistinctRows(rows) && InGrid(g, Indices(x, y))
    requires Owns(g, b, Begin) && Owns(g, e, End)
    ensures var r := UpdateEffect(rows, g, b, e, ls, x, y, s);
      Owns(r.cells, r.begin, Begin) && Owns(r.cells, r.end, End)
  {
    var here := Indices(x, y);
    if !IsEndpoint(g[x][y]) {
      var written := Set(g, here, s);
      WriteDistinct(rows, g, x, y, s);
      if s == End {
        OwnsAfterTransfer(g, e, End, here);
        OwnsAfterWrite(g, b, Begin, here, End);
        if e.Some? {
          var q := e.value;
          WriteDistinct(rows, written, q.x, q.y, UnvisitedCell);
          OwnsAfterWrite(written, b, Begin, q, UnvisitedCell);
        }
      } else if s == Begin {
        OwnsAfterTransfer(g, b, Begin, here);
        OwnsAfterWrite(g, e, End, here, Begin);
        if b.Some? {
          var q := b.value;
          WriteDistinct(rows, written, q.x, q.y, UnvisitedCell);
          OwnsAfterWrite(written, e, End, q, UnvisitedCell);
        }
      } else {
        OwnsAfterWrite(g, b, Begin, here, s);
        OwnsAfterWrite(g, e, End, here, s);
      }
    }
  }

  /** What the invariant gives: at most one cell holds label `s`, and the
      recorded holder's cell does hold it. */
  lemma OwnerIsUnique(g: seq<seq<State>>, holder: Option<Indices>, s: State, p: Indices, q: Indices)
    requires Owns(g, holder, s)
    requires InGrid(g, p) && InGrid(g, q) && g[p.x][p.y] == s && g[q.x][q.y] == s
    ensures p == q && holder == Some(p)
  {
  }

  lemma HolderHoldsLabel(g: seq<seq<State>>, holder: Option<Indices>, s: State)
    requires Owns(g, holder, s) && holder.Some?
    ensures g[holder.value.x][holder.value.y] == s
  {
  }

  /** A grid of walls only (as the wall-fill generator makes) satisfies the
      invariant for an endpoint exactly when that endpoint is unset: an
      endpoint recorded before regenerate is left stale. */
  lemma AllWallsOwnership(g: seq<seq<State>>, holder: Option<Indices>, s: State)
    requires IsEndpoint(s)
    requires forall i, j :: 0 <= i < |g| && 0 <= j < |g[i]| ==> g[i][j] == Wall
    ensures Owns(g, holder, s) <==> holder == None
  {
    if holder.Some? {
      var p := holder.value;
      if InGrid(g, p) {
        assert g[p.x][p.y] == Wall;
      }
    }
  }

  class Model {
    var model: seq<array<State>>
    var begin: Option<Indices>
    var end: Option<Indices>
    var listeners: seq<ListenerId>
    /** The labels the rows of `model` hold. */
    ghost var cells: seq<seq<State>>
    /** Every listener call made so far, oldest first. */
    ghost var log: seq<Event>

    /** `cells` is what the row arrays hold. */
    ghost predicate Valid()
      reads this`model, this`cells, model
    {
      |cells| == |model| && forall i :: 0 <= i < |model| ==> cells[i] == model[i][..]
    }

    /** The single-owner invariant for BEGIN and END, over unaliased rows. */
    ghost predicate Consistent()
      reads this, model
    {
      Valid() && DistinctRows(model) && Owns(cells, begin, Begin) && Owns(cells, end, End)
    }

    constructor ()
      ensures Valid() && Consistent()
      ensures model == [] && begin == None && end == None && listeners == [] && log == []
    {
      model := [];
      cells := [];
      begin := None;
      end := None;
      listeners := [];
      log := [];
    }

    /** Replaces the whole matrix by `state` (the same row arrays, not a
        copy) and sends every listener, in order, a snapshot of it. */
    method Regenerate(state: seq<array<State>>)
      modifies this
      ensures Valid() && model == state && cells == Contents(state)
      ensures begin == old(begin) && end == old(end) && listeners == old(listeners)
      ensures log == old(log) + Resets(listeners, cells)
    {
      model := state;
      cells := Contents(state);
      for i := 0 to |listeners|
        invariant model == state && cells == Contents(state)
        invariant begin == old(begin) && end == old(end) && listeners == old(listeners)
        invariant log == old(log) + Resets(listeners[..i], cells)
      {
        assert listeners[..i + 1] == listeners[..i] + [listeners[i]];
        ResetsAppend(listeners[..i], listeners[i], cells);
        log := log + [Reset(listeners[i], cells)];
      }
      assert listeners[..|listeners|] == listeners;
    }

    /** One onUpdate(x, y, s) to every listener, in list order. */
    method NotifyUpdate(x: int, y: int, s: State)
      modifies this`log
      ensures log == old(log) + Broadcast(listeners, x, y, s)
    {
      for i := 0 to |listeners|
        invariant log == old(log) + Broadcast(listeners[..i], x, y, s)
      {
        assert listeners[..i + 1] == listeners[..i] + [listeners[i]];
        BroadcastAppend(listeners[..i], listeners[i], x, y, s);
        log := log + [Update(listeners[i], x, y, s)];
      }
      assert listeners[..|listeners|] == listeners;
    }

    /** Writes one cell in place; every row that is the same array sees it. */
    method SetCell(i: int, j: int, s: State)
      requires Valid() && InGrid(cells, Indices(i, j))
      modifies this`cells, model[i]
      ensures Valid() && cells == Write(model, old(cells), i, j, s)
    {
      model[i][j] := s;
      cells := Write(model, cells, i, j, s);
      forall k | 0 <= k < |model| ensures cells[k] == model[k][..] { }
    }

    /** The demotion shared by END and BEGIN: if an endpoint was recorded,
        its cell becomes UnvisitedCell and every listener is told. */
    method DemoteHolder(holder: Option<Indices>)
      requires Valid() && (holder.Some? ==> InGrid(cells, holder.value))
      modifies this`cells, this`log, model
      ensures Valid()
      ensures var (c, events) := Demote(model, old(cells), holder, listeners);
        cells == c && log == old(log) + events
    {
      if holder.Some? {
        var p := holder.value;
        SetCell(p.x, p.y, UnvisitedCell);
        NotifyUpdate(p.x, p.y, UnvisitedCell);
      }
    }

    /** The END and BEGIN branches of updateModel: a new endpoint demotes the previous
        holder, if any, and is then recorded. */
    method DesignateEndpoint(x: int, y: int, state: State)
      requires Valid()
      requires state == End && end.Some? ==> InGrid(cells, end.value)
      requires state == Begin && begin.Some? ==> InGrid(cells, begin.value)
      modifies this, model
      ensures Valid() && model == old(model) && listeners == old(listeners)
      ensures var d := Designation(model, old(cells), old(begin), old(end), listeners, x, y, state);
        cells == d.cells && begin == d.begin && end == d.end && log == old(log) + d.events
    {
      if state == End {
        DemoteHolder(end);
        end := Some(Indices(x, y));
      } else if state == Begin {
        DemoteHolder(begin);
        begin := Some(Indices(x, y));
      }
    }

    /** Writes `state` at (x, y) unless that cell holds BEGIN or END; a new
        BEGIN or END first demotes the previous holder and tells every
        listener, then every listener hears of (x, y). */
    method UpdateModel(x: int, y: int, state: State)
      requires Valid() && InGrid(cells, Indices(x, y))
      requires !IsEndpoint(cells[x][y]) && state == End && end.Some? ==> InGrid(cells, end.value)
      requires !IsEndpoint(cells[x][y]) && state == Begin && begin.Some? ==> InGrid(cells, begin.value)
      modifies this, model
      ensures Valid() && model == old(model) && listeners == old(listeners)
      ensures var r := UpdateEffect(model, old(cells), old(begin), old(end), listeners, x, y, state);
        cells == r.cells && begin == r.begin && end == r.end && log == old(log) + r.events
      ensures old(Consistent()) ==> Consistent()
    {
      if model[x][y] == End || model[x][y] == Begin {
        return;
      }
      SetCell(x, y, state);
      ghost var written := cells;
      DesignateEndpoint(x, y, state);
      ghost var d := Designation(model, written, old(begin), old(end), listeners, x, y, state);
      NotifyUpdate(x, y, state);
      AppendAssociative(old(log), d.events, Broadcast(listeners, x, y, state));
      if old(Consistent()) {
        UpdatePreservesOwnership(model, old(cells), old(begin), old(end), listeners, x, y, state);
      }
    }

    /** Appends a listener; everything else is left as it was. */
    method AddListener(listener: ListenerId)
      modifies this`listeners
      ensures listeners == old(listeners) + [listener]
      ensures model == old(model) && cells == old(cells) && begin == old(begin) && end == old(end) && log == old(log)
      ensures old(Consistent()) ==> Consistent()
    {
      listeners := listeners + [listener];
    }
  }
}
