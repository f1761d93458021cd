/**
  The colour lookup and face layout behind `Cube.visualize` in main.py: which colour a
  piece shows on a given side (`get_color`) and the 3x3 grid of colours a side is drawn
  as (`get_lines`). A lookup that raises in Python (`KeyError` on a dictionary key,
  `ValueError` from `.index`) is `None` here. The console layout is not modelled.
 */
module Visualize {
  import opened Options
  import opened Tables
  import opened CubeState

  // ---------------------------------------------------------------------------
  // Colour lookup.

  /** `t.index(x)`: the first position of `x` in `t`, `None` where Python raises `ValueError`. */
  function IndexOf(t: string, x: char): (r: Option<nat>)
    ensures r.Some? <==> x in t
    ensures r.Some? ==> r.value < |t| && t[r.value] == x
    ensures r.Some? ==> forall k :: 0 <= k < r.value ==> t[k] != x
  {
    if |t| == 0 then None
    else if t[0] == x then Some(0)
    else match IndexOf(t[1..], x)
      case None => None
      case Some(k) => Some(k + 1)
  }

  /** `edge_positions` or `corner_positions`. */
  function Positions(edge: bool): (t: seq<string>)
    ensures |t| == if edge then NumEdges else NumCorners
    ensures forall p :: 0 <= p < |t| ==> |t[p]| == Orientations(edge)
  {
    if edge then EdgePositions else CornerPositions
  }

  /** `edge_colors` or the palette's corner colour table. */
  function Colors(pal: Palette, edge: bool): (t: seq<string>)
    ensures |t| == if edge then NumEdges else NumCorners
    ensures forall p :: 0 <= p < |t| ==> |t[p]| == Orientations(edge)
  {
    if edge then EdgeColors else CornerColorTable(pal)
  }

  /** The number of orientations of a piece type: `2 if edge else 3`. */
  function Orientations(edge: bool): Modulus
  {
    if edge then 2 else 3
  }

  /** Every entry of the position and colour tables has one letter per orientation. */
  lemma TablesShaped(pal: Palette, edge: bool)
    ensures |Positions(edge)| == |Colors(pal, edge)| == if edge then NumEdges else NumCorners
    ensures forall p :: 0 <= p < |Positions(edge)| ==> |Positions(edge)[p]| == Orientations(edge)
    ensures forall p :: 0 <= p < |Colors(pal, edge)| ==> |Colors(pal, edge)[p]| == Orientations(edge)
  {
  }

  /**
    Step 1 of `get_color`: the index of the colour piece in slot `pos` with orientation
    `ori` shows on side `side`: the position of the side's letter among the slot's face
    letters, plus the orientation, mod 2 or 3. It fails when `pos` is not a key of the
    position table or the slot does not border the side.
   */
  function ColorIndex(edge: bool, pos: int, ori: int, side: Side): (r: Option<int>)
    ensures r.Some? <==> 0 <= pos < |Positions(edge)| && Letter(side) in Positions(edge)[pos]
    ensures r.Some? ==> 0 <= r.value < Orientations(edge)
  {
    if !(0 <= pos < |Positions(edge)|) then None
    else ShiftedIndex(Positions(edge)[pos], Letter(side), ori, Orientations(edge))
  }

  /** `(t.index(x) + ori) % m`, or `None` where `.index` raises. */
  function ShiftedIndex(t: string, x: char, ori: int, m: Modulus): (r: Option<int>)
    ensures r.Some? <==> x in t
    ensures r.Some? ==> 0 <= r.value < m
  {
    match IndexOf(t, x)
    case None => None
    case Some(k) => Some(Reduce(k + ori, m))
  }

  /** Adding `m` to the orientation does not change the shifted index. */
  lemma ShiftedIndexPeriodic(t: string, x: char, ori: int, m: Modulus)
    ensures ShiftedIndex(t, x, ori + m, m) == ShiftedIndex(t, x, ori, m)
  {
    if x in t {
      ReducePeriodic(IndexOf(t, x).value, ori, m);
    }
  }

  /** Two orientations below `m` give different shifted indices. */
  lemma ShiftedIndexSeparates(t: string, x: char, o1: int, o2: int, m: Modulus)
    requires 0 <= o1 < o2 < m && x in t
    ensures ShiftedIndex(t, x, o1, m) != ShiftedIndex(t, x, o2, m)
  {
    ReduceSeparates(IndexOf(t, x).value, o1, o2, m);
  }

  /**
    `get_color(edge, piece, pos, ori, side)`: the colour piece `piece`, sitting in slot
    `pos` with orientation `ori`, shows on side `side` (step 2 picks the letter at the
    index of step 1 from the piece's colours). It fails when step 1 fails or `piece` is
    not a key of the colour table.
   */
  function GetColor(pal: Palette, edge: bool, piece: int, pos: int, ori: int, side: Side): (r: Option<char>)
    ensures r.Some? <==>
      && 0 <= pos < |Positions(edge)| && Letter(side) in Positions(edge)[pos]
      && 0 <= piece < |Colors(pal, edge)|
    ensures r.Some? ==> r.value in Colors(pal, edge)[piece]
  {
    TablesShaped(pal, edge);
    match ColorIndex(edge, pos, ori, side)
    case None => None
    case Some(i) =>
      if !(0 <= piece < |Colors(pal, edge)|) then None
      else Some(Colors(pal, edge)[piece][i])
  }

  /** The colour index only depends on the orientation modulo the number of orientations. */
  lemma ColorIndexPeriodic(edge: bool, pos: int, ori: int, side: Side)
    ensures ColorIndex(edge, pos, ori + Orientations(edge), side) == ColorIndex(edge, pos, ori, side)
  {
    if 0 <= pos < |Positions(edge)| {
      ShiftedIndexPeriodic(Positions(edge)[pos], Letter(side), ori, Orientations(edge));
    }
  }

  /** The orientation only matters modulo the number of orientations. */
  lemma GetColorPeriodic(pal: Palette, edge: bool, piece: int, pos: int, ori: int, side: Side)
    ensures GetColor(pal, edge, piece, pos, ori + Orientations(edge), side)
         == GetColor(pal, edge, piece, pos, ori, side)
  {
    ColorIndexPeriodic(edge, pos, ori, side);
  }

  /**
    Undoing the twist recovers the side: taking `ori` back off the index step 1 picks
    gives the place of the side's letter among the slot's face letters.
   */
  lemma ColorIndexLocatesSide(edge: bool, pos: int, ori: int, side: Side)
    requires ColorIndex(edge, pos, ori, side).Some?
    ensures IndexOf(Positions(edge)[pos], Letter(side))
         == Some(Reduce(ColorIndex(edge, pos, ori, side).value - ori, Orientations(edge)))
  {
    ShiftedIndexUndone(Positions(edge)[pos], Letter(side), ori, Orientations(edge));
  }

  /** Taking `ori` back off the shifted index gives the index of `x` in `t`. */
  lemma ShiftedIndexUndone(t: string, x: char, ori: int, m: Modulus)
    requires x in t && |t| == m
    ensures IndexOf(t, x) == Some(Reduce(ShiftedIndex(t, x, ori, m).value - ori, m))
  {
    ReduceUndone(IndexOf(t, x).value, ori, m);
  }

  /** An untwisted piece shows on a side the colour listed at the place of that side's letter. */
  lemma GetColorUntwisted(pal: Palette, edge: bool, piece: int, pos: int, side: Side)
    requires GetColor(pal, edge, piece, pos, 0, side).Some?
    ensures GetColor(pal, edge, piece, pos, 0, side)
         == Some(Colors(pal, edge)[piece][IndexOf(Positions(edge)[pos], Letter(side)).value])
  {
    ShiftedIndexUntwisted(Positions(edge)[pos], Letter(side), Orientations(edge));
  }

  /** With no twist the shifted index is the index of `x` in `t`. */
  lemma ShiftedIndexUntwisted(t: string, x: char, m: Modulus)
    requires x in t && |t| == m
    ensures ShiftedIndex(t, x, 0, m) == IndexOf(t, x)
  {
    ReduceUndone(IndexOf(t, x).value, 0, m);
  }

  /**
    One more twist shows the next colour of the piece's tuple, wrapping from the last
    back to the first.
   */
  lemma GetColorNext(pal: Palette, edge: bool, piece: int, pos: int, ori: int, side: Side, i: int)
    requires GetColor(pal, edge, piece, pos, ori, side).Some?
    requires 0 <= i < |Colors(pal, edge)[piece]|
    requires Colors(pal, edge)[piece][i] == GetColor(pal, edge, piece, pos, ori, side).value
    ensures GetColor(pal, edge, piece, pos, ori + 1, side)
         == Some(Colors(pal, edge)[piece][(i + 1) % |Colors(pal, edge)[piece]|])
  {
    var m := Orientations(edge);
    var k := IndexOf(Positions(edge)[pos], Letter(side)).value;
    PieceColorsDistinct(pal, edge, piece);
    assert ColorIndex(edge, pos, ori, side) == Some(Reduce(k + ori, m));
    assert Reduce(k + ori, m) == i;
    ReduceNext(k, ori, m);
    assert ColorIndex(edge, pos, ori + 1, side) == Some(Reduce(i + 1, m));
  }

  /** Reducing, subtracting the offset and reducing again gives back a value below the modulus. */
  lemma ReduceUndone(k: int, ori: int, m: Modulus)
    requires 0 <= k < m
    ensures Reduce(Reduce(k + ori, m) - ori, m) == k
  {
  }

  /** One more offset moves the reduced value one place on, wrapping at the modulus. */
  lemma ReduceNext(k: int, ori: int, m: Modulus)
    ensures Reduce(k + (ori + 1), m) == Reduce(Reduce(k + ori, m) + 1, m)
  {
  }

  /** Adding the modulus does not change the reduced value. */
  lemma ReducePeriodic(k: int, ori: int, m: Modulus)
    ensures Reduce(k + (ori + m), m) == Reduce(k + ori, m)
  {
  }

  /** Two offsets below the modulus give different reduced values. */
  lemma ReduceSeparates(x: int, o1: int, o2: int, m: Modulus)
    requires 0 <= o1 < o2 < m
    ensures Reduce(x + o1, m) != Reduce(x + o2, m)
  {
  }

  /**
    Different orientations of one piece in one slot show different colours on a side,
    when the piece's colours are distinct.
   */
  lemma GetColorSeparatesOrientations(pal: Palette, edge: bool, piece: int, pos: int, o1: int, o2: int, side: Side)
    requires 0 <= o1 < o2 < Orientations(edge)
    requires GetColor(pal, edge, piece, pos, o1, side).Some?
    ensures GetColor(pal, edge, piece, pos, o1, side) != GetColor(pal, edge, piece, pos, o2, side)
  {
    TablesShaped(pal, edge);
    ColorIndexSeparates(edge, pos, o1, o2, side);
    PieceColorsDistinct(pal, edge, piece);
  }

  /** Different orientations below the number of orientations give different colour indices. */
  lemma ColorIndexSeparates(edge: bool, pos: int, o1: int, o2: int, side: Side)
    requires 0 <= o1 < o2 < Orientations(edge)
    requires ColorIndex(edge, pos, o1, side).Some?
    ensures ColorIndex(edge, pos, o1, side) != ColorIndex(edge, pos, o2, side)
  {
    ShiftedIndexSeparates(Positions(edge)[pos], Letter(side), o1, o2, Orientations(edge));
  }

  /** Each piece's colours are pairwise distinct, in both palettes. */
  lemma PieceColorsDistinct(pal: Palette, edge: bool, piece: int)
    requires 0 <= piece < |Colors(pal, edge)|
    ensures forall a, b :: 0 <= a < b < |Colors(pal, edge)[piece]| ==> Colors(pal, edge)[piece][a] != Colors(pal, edge)[piece][b]
  {
  }

  // ---------------------------------------------------------------------------
  // What a solved piece shows.

  /** A piece in its own slot, untwisted, shows each bordering side's own colour. */
  predicate ShowsFaceColor(pal: Palette, edge: bool, pos: int, side: Side)
  {
    GetColor(pal, edge, pos, pos, 0, side) == Some(Color(side))
  }

  /** Every edge in its own slot, untwisted, shows the colour of every side it borders. */
  lemma SolvedEdgesShowFaces(side: Side, pos: int)
    requires 0 <= pos < NumEdges && Letter(side) in EdgePositions[pos]
    ensures ShowsFaceColor(AsWritten, true, pos, side) && ShowsFaceColor(Corrected, true, pos, side)
  {
    assert EdgePositions[pos] == [EdgePositions[pos][0], EdgePositions[pos][1]];
  }

  /** With entry 4 corrected, every corner in its own slot, untwisted, shows its sides' colours. */
  lemma SolvedCornersShowFaces(side: Side, pos: int)
    requires 0 <= pos < NumCorners && Letter(side) in CornerPositions[pos]
    ensures ShowsFaceColor(Corrected, false, pos, side)
  {
    GetColorUntwisted(Corrected, false, pos, pos, side);
    assert CornerPositions[pos] == [CornerPositions[pos][0], CornerPositions[pos][1], CornerPositions[pos][2]];
  }

  /**
    With the table as written, solved corner 4 in slot DFR shows red on F and green on R,
    the other way round; every other solved corner shows its sides' colours.
   */
  lemma SolvedCornersAsWritten(side: Side, pos: int)
    requires 0 <= pos < NumCorners && Letter(side) in CornerPositions[pos]
    ensures pos == 4 && side == 1 ==> GetColor(AsWritten, false, pos, pos, 0, side) == Some('R')
    ensures pos == 4 && side == 2 ==> GetColor(AsWritten, false, pos, pos, 0, side) == Some('G')
    ensures ShowsFaceColor(AsWritten, false, pos, side) <==> !(pos == 4 && (side == 1 || side == 2))
  {
    assert CornerPositions[pos] == [CornerPositions[pos][0], CornerPositions[pos][1], CornerPositions[pos][2]];
  }

  // ---------------------------------------------------------------------------
  // The face grid.

  /** `i*3+j - (0 if i*3+j < 4 else 1)`: the `piece_order` entry drawn at row `i`, column `j`. */
  function CellIndex(i: int, j: int): int
  {
    var n := i * 3 + j;
    if n < 4 then n else n - 1
  }

  /** The row and column at which `piece_order` entry `n` is drawn. */
  function CellOf(n: int): (int, int)
  {
    if n < 4 then (n / 3, n % 3) else ((n + 1) / 3, (n + 1) % 3)
  }

  /** Whether row `i`, column `j` is a cell of the 3x3 grid other than the centre. */
  predicate OuterCell(i: int, j: int)
  {
    0 <= i < 3 && 0 <= j < 3 && (i, j) != (1, 1)
  }

  /**
    The cell index map is a bijection from the eight outer cells onto 0..7, with
    `CellOf` its inverse; the centre reads entry 3, which is also drawn at row 1, column 0.
   */
  lemma CellIndexBijection()
    ensures forall i, j :: OuterCell(i, j) ==> 0 <= CellIndex(i, j) < 8 && CellOf(CellIndex(i, j)) == (i, j)
    ensures forall n :: 0 <= n < 8 ==> OuterCell(CellOf(n).0, CellOf(n).1) && CellIndex(CellOf(n).0, CellOf(n).1) == n
    ensures CellIndex(1, 1) == CellIndex(1, 0) == 3
  {
    forall i, j | OuterCell(i, j)
      ensures 0 <= CellIndex(i, j) < 8 && CellOf(CellIndex(i, j)) == (i, j)
    {
      assert i == 0 || i == 1 || i == 2;
      assert j == 0 || j == 1 || j == 2;
    }
    forall n | 0 <= n < 8
      ensures OuterCell(CellOf(n).0, CellOf(n).1) && CellIndex(CellOf(n).0, CellOf(n).1) == n
    {
      assert n == 0 || n == 1 || n == 2 || n == 3 || n == 4 || n == 5 || n == 6 || n == 7;
    }
  }

  /** Every `piece_order` entry names a slot of its kind that borders the side. */
  lemma PieceOrderSlots(side: Side)
    ensures |PieceOrder[side]| == 8
    ensures forall n :: 0 <= n < 8 ==> (PieceOrder[side][n].0 <==> n in [1, 3, 4, 6])
    ensures forall n :: 0 <= n < 8 && PieceOrder[side][n].0 ==> PieceOrder[side][n].1 in EdgeCycle(side)
    ensures forall n :: 0 <= n < 8 && !PieceOrder[side][n].0 ==> PieceOrder[side][n].1 in CornerCycle(side)
  {
  }

  /** Every slot a side's turn cycles is drawn on that side. */
  lemma CyclesDrawn(side: Side)
    ensures forall e :: e in EdgeCycle(side) ==> (true, e) in PieceOrder[side]
    ensures forall e :: e in CornerCycle(side) ==> (false, e) in PieceOrder[side]
  {
    // One empty branch per side: each branch lets the solver compare that side's literal
    // table rows on their own instead of all six at once.
    if side == 0 {
    } else if side == 1 {
    } else if side == 2 {
    } else if side == 3 {
    } else if side == 4 {
    } else {
    }
  }

  /** The piece drawn at `piece_order[side][n]`, read from the slot arrays. */
  function DrawnPiece(c: Cube, side: Side, n: int): (p: Piece)
    requires HasSlots(c) && 0 <= n < 8
  {
    PieceOrderSlots(side);
    var (edge, pos) := PieceOrder[side][n];
    if edge then c.edges[pos] else c.corners[pos]
  }

  /** `piece_order[side][n]`: whether entry `n` of the side is an edge, and its slot. */
  function DrawnEntry(side: Side, n: int): (bool, int)
    requires 0 <= n < 8
  {
    PieceOrderSlots(side);
    PieceOrder[side][n]
  }

  /** Every piece drawn on the side has an id that is a key of its colour table. */
  predicate DrawnIdsInRange(c: Cube, side: Side)
    requires HasSlots(c)
  {
    forall n :: 0 <= n < 8 ==> 0 <= DrawnPiece(c, side, n).id < (if PieceOrder[side][n].0 then NumEdges else NumCorners)
  }

  /** The letter drawn at row `i`, column `j`; the centre is the side's own colour. */
  function Cell(pal: Palette, c: Cube, side: Side, i: int, j: int): (r: Option<char>)
    requires HasSlots(c) && 0 <= i < 3 && 0 <= j < 3
    ensures (i, j) == (1, 1) ==> r == Some(Color(side))
    ensures r.None? <==>
      (i, j) != (1, 1) && !(0 <= DrawnPiece(c, side, CellIndex(i, j)).id
                              < (if PieceOrder[side][CellIndex(i, j)].0 then NumEdges else NumCorners))
  {
    var n := CellIndex(i, j);
    PieceOrderSlots(side);
    EdgeCycleIsFaceSlots(side);
    CornerCycleIsFaceSlots(side);
    var (edge, pos) := PieceOrder[side][n];
    var p := DrawnPiece(c, side, n);
    if i * 3 + j != 4 then GetColor(pal, edge, p.id, pos, p.ori, side) else Some(Color(side))
  }

  /** The nine letters of a side, row by row: entry `3*i+j` is row `i`, column `j`. */
  function Cells(pal: Palette, c: Cube, side: Side): (r: seq<Option<char>>)
    requires HasSlots(c)
    ensures |r| == 9
  {
    seq(9, k requires 0 <= k < 9 => Cell(pal, c, side, k / 3, k % 3))
  }

  /** Entry `k` of the cell sequence is row `k / 3`, column `k % 3`. */
  lemma CellAt(pal: Palette, c: Cube, side: Side, k: int)
    requires HasSlots(c) && 0 <= k < 9
    ensures Cells(pal, c, side)[k] == Cell(pal, c, side, k / 3, k % 3)
  {
  }

  /** Row `i` as a string of three letters, or `None` if one of its lookups failed. */
  function Row(cells: seq<Option<char>>, i: int): Option<string>
    requires |cells| == 9 && 0 <= i < 3
  {
    if cells[3 * i].Some? && cells[3 * i + 1].Some? && cells[3 * i + 2].Some?
    then Some([cells[3 * i].value, cells[3 * i + 1].value, cells[3 * i + 2].value])
    else None
  }

  /** The three rows, or `None` as soon as one lookup failed. */
  function Lines(cells: seq<Option<char>>): Option<seq<string>>
    requires |cells| == 9
  {
    match (Row(cells, 0), Row(cells, 1), Row(cells, 2))
    case (Some(a), Some(b), Some(d)) => Some([a, b, d])
    case _ => None
  }

  /**
    `get_lines(side)`: the three rows of a side, or `None` if a lookup fails. Drawing fails
    exactly when one of the eight pieces drawn on the side has an id that is not a key of
    its colour table; every other lookup on the way is guaranteed by the tables. A drawn
    side is three rows of three letters with the side's own colour in the centre.
   */
  function GetLines(pal: Palette, c: Cube, side: Side): (r: Option<seq<string>>)
    requires HasSlots(c)
    ensures r.Some? <==> DrawnIdsInRange(c, side)
    ensures r.Some? ==>
      && |r.value| == 3
      && (forall i :: 0 <= i < 3 ==> |r.value[i]| == 3)
      && r.value[1][1] == Color(side)
  {
    var cells := Cells(pal, c, side);
    LinesOfCells(cells);
    CellsDefined(pal, c, side);
    CentreCell(pal, c, side);
    Lines(cells)
  }

  /** The rows are built exactly when every cell is, and then they hold the cells in order. */
  lemma LinesOfCells(cells: seq<Option<char>>)
    requires |cells| == 9
    ensures Lines(cells).Some? <==> forall k :: 0 <= k < 9 ==> cells[k].Some?
    ensures Lines(cells).Some? ==>
      && |Lines(cells).value| == 3
      && (forall i :: 0 <= i < 3 ==> |Lines(cells).value[i]| == 3)
      && forall i, j :: 0 <= i < 3 && 0 <= j < 3 ==> Some(Lines(cells).value[i][j]) == cells[3 * i + j]
  {
    if forall k :: 0 <= k < 9 ==> cells[k].Some? {
      assert Row(cells, 0).Some? && Row(cells, 1).Some? && Row(cells, 2).Some?;
    } else {
      var k :| 0 <= k < 9 && cells[k].None?;
      assert Row(cells, k / 3).None?;
    }
  }

  /**
    Every outer cell of a drawn side is what `get_color` gives for the entry `piece_order`
    names there: that slot's piece id and orientation, looked up on this side.
   */
  lemma GetLinesCell(pal: Palette, c: Cube, side: Side, i: int, j: int)
    requires HasSlots(c) && OuterCell(i, j) && DrawnIdsInRange(c, side)
    ensures GetLines(pal, c, side).Some?
    ensures |GetLines(pal, c, side).value| == 3 && |GetLines(pal, c, side).value[i]| == 3
    ensures Some(GetLines(pal, c, side).value[i][j])
         == GetColor(pal, DrawnEntry(side, CellIndex(i, j)).0, DrawnPiece(c, side, CellIndex(i, j)).id,
                     DrawnEntry(side, CellIndex(i, j)).1, DrawnPiece(c, side, CellIndex(i, j)).ori, side)
  {
    var cells := Cells(pal, c, side);
    LinesOfCells(cells);
    CellAt(pal, c, side, 3 * i + j);
    OuterCellShows(pal, c, side, i, j);
  }

  /** Proof step for `GetLinesCell`: an outer cell is the colour `get_color` gives for the piece `piece_order` names there. */
  lemma OuterCellShows(pal: Palette, c: Cube, side: Side, i: int, j: int)
    requires HasSlots(c) && OuterCell(i, j)
    ensures Cell(pal, c, side, i, j)
         == GetColor(pal, DrawnEntry(side, CellIndex(i, j)).0, DrawnPiece(c, side, CellIndex(i, j)).id,
                     DrawnEntry(side, CellIndex(i, j)).1, DrawnPiece(c, side, CellIndex(i, j)).ori, side)
  {
  }

  /** The centre cell is the side's own colour, whatever the state. */
  lemma CentreCell(pal: Palette, c: Cube, side: Side)
    requires HasSlots(c)
    ensures Cells(pal, c, side)[4] == Some(Color(side))
  {
    CellAt(pal, c, side, 4);
  }

  /** Every cell is drawn exactly when every drawn piece has an id in range. */
  lemma CellsDefined(pal: Palette, c: Cube, side: Side)
    requires HasSlots(c)
    ensures (forall k :: 0 <= k < 9 ==> Cells(pal, c, side)[k].Some?) <==> DrawnIdsInRange(c, side)
  {
    var cells := Cells(pal, c, side);
    CellIndexBijection();
    if DrawnIdsInRange(c, side) {
      forall k | 0 <= k < 9
        ensures cells[k].Some?
      {
        CellAt(pal, c, side, k);
        if k != 4 {
          assert OuterCell(k / 3, k % 3);
        }
      }
    } else {
      var n :| 0 <= n < 8 && !(0 <= DrawnPiece(c, side, n).id < (if PieceOrder[side][n].0 then NumEdges else NumCorners));
      var (i, j) := CellOf(n);
      CellAt(pal, c, side, 3 * i + j);
    }
  }

  /** A well-formed state can always be drawn. */
  lemma WellFormedDrawable(pal: Palette, c: Cube, side: Side)
    requires WellFormed(c)
    ensures GetLines(pal, c, side).Some?
  {
    forall n | 0 <= n < 8
      ensures 0 <= DrawnPiece(c, side, n).id < (if PieceOrder[side][n].0 then NumEdges else NumCorners)
    {
      PieceOrderSlots(side);
    }
    assert DrawnIdsInRange(c, side);
  }

  // ---------------------------------------------------------------------------
  // How the solved state is drawn.

  /** Rows `rows` are drawn exactly when the cells hold their letters in order. */
  lemma LinesExact(cells: seq<Option<char>>, rows: seq<string>)
    requires |cells| == 9 && |rows| == 3 && forall i :: 0 <= i < 3 ==> |rows[i]| == 3
    requires forall i, j :: 0 <= i < 3 && 0 <= j < 3 ==> cells[3 * i + j] == Some(rows[i][j])
    ensures Lines(cells) == Some(rows)
  {
    forall k | 0 <= k < 9
      ensures cells[k].Some?
    {
      assert cells[3 * (k / 3) + k % 3] == Some(rows[k / 3][k % 3]);
    }
    LinesOfCells(cells);
    var lines := Lines(cells).value;
    forall i | 0 <= i < 3
      ensures lines[i] == rows[i]
    {
      forall j | 0 <= j < 3
        ensures lines[i][j] == rows[i][j]
      {
        assert Some(lines[i][j]) == cells[3 * i + j];
      }
    }
    assert lines == rows;
  }

  /** Cell `k` of a solved state, drawn with the table `pal`, is the side's colour or the letter the table gives. */
  lemma SolvedCell(pal: Palette, c: Cube, side: Side, k: int)
    requires IsSolved(c) && 0 <= k < 9
    ensures pal == Corrected ==> Cells(pal, c, side)[k] == Some(Color(side))
    ensures pal == AsWritten && side == 1 && k == 8 ==> Cells(pal, c, side)[k] == Some('R')
    ensures pal == AsWritten && side == 2 && k == 6 ==> Cells(pal, c, side)[k] == Some('G')
    ensures pal == AsWritten && !(side == 1 && k == 8) && !(side == 2 && k == 6) ==>
              Cells(pal, c, side)[k] == Some(Color(side))
  {
    CellAt(pal, c, side, k);
    if k != 4 {
      var n := CellIndex(k / 3, k % 3);
      PieceOrderSlots(side);
      EdgeCycleIsFaceSlots(side);
      CornerCycleIsFaceSlots(side);
      var (edge, pos) := PieceOrder[side][n];
      if edge {
        SolvedEdgesShowFaces(side, pos);
      } else {
        SolvedCornersShowFaces(side, pos);
        SolvedCornersAsWritten(side, pos);
        CornerFourCells(side, k);
      }
    }
  }

  /** Corner slot 4 is drawn on F at row 2, column 2 and on R at row 2, column 0. */
  lemma CornerFourCells(side: Side, k: int)
    requires 0 <= k < 9 && k != 4
    ensures var e := PieceOrder[side][CellIndex(k / 3, k % 3)];
      (!e.0 && e.1 == 4 && (side == 1 || side == 2)) <==> ((side == 1 && k == 8) || (side == 2 && k == 6))
  {
  }

  /** The nine letters of one colour. */
  function Uniform(x: char): seq<string>
  {
    [[x, x, x], [x, x, x], [x, x, x]]
  }

  /** With corner 4's colours in its slot's order, every side of the solved state is drawn in its own colour. */
  lemma SolvedFacesUniform(c: Cube, side: Side)
    requires IsSolved(c)
    ensures GetLines(Corrected, c, side) == Some(Uniform(Color(side)))
  {
    SolvedFaceRows(Corrected, c, side, Uniform(Color(side)));
  }

  /**
    With the table as written, the solved state's F side shows red in its bottom-right
    cell and its R side shows green in its bottom-left cell (both corner 4); the other
    four sides are drawn in their own colour.
   */
  lemma SolvedFacesAsWritten(c: Cube, side: Side)
    requires IsSolved(c)
    ensures side == 1 ==> GetLines(AsWritten, c, side) == Some(["GGG", "GGG", "GGR"])
    ensures side == 2 ==> GetLines(AsWritten, c, side) == Some(["RRR", "RRR", "GRR"])
    ensures side != 1 && side != 2 ==> GetLines(AsWritten, c, side) == Some(Uniform(Color(side)))
  {
    if side == 1 {
      SolvedFaceRows(AsWritten, c, side, ["GGG", "GGG", "GGR"]);
    } else if side == 2 {
      SolvedFaceRows(AsWritten, c, side, ["RRR", "RRR", "GRR"]);
    } else {
      SolvedFaceRows(AsWritten, c, side, Uniform(Color(side)));
    }
  }

  /** A side of the solved state is drawn as `rows` when every letter of `rows` is what its cell shows. */
  lemma SolvedFaceRows(pal: Palette, c: Cube, side: Side, rows: seq<string>)
    requires IsSolved(c)
    requires |rows| == 3 && forall i :: 0 <= i < 3 ==> |rows[i]| == 3
    requires forall i, j :: 0 <= i < 3 && 0 <= j < 3 ==>
      rows[i][j] == (if pal == AsWritten && side == 1 && 3 * i + j == 8 then 'R'
                     else if pal == AsWritten && side == 2 && 3 * i + j == 6 then 'G'
                     else Color(side))
    ensures GetLines(pal, c, side) == Some(rows)
  {
    forall i, j | 0 <= i < 3 && 0 <= j < 3
      ensures Cells(pal, c, side)[3 * i + j] == Some(rows[i][j])
    {
      SolvedCell(pal, c, side, 3 * i + j);
    }
    LinesExact(Cells(pal, c, side), rows);
  }
}
