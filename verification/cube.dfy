/**
  The state of the cube (`Cube.__init__`) and one face turn (`Cube.rotate`).
  A slot array is a sequence of pieces; the index is the slot, the piece records
  which physical piece sits there and how it is twisted. States are values: a turn
  returns the new state instead of mutating the lists in place.
 */
module CubeState {
  import opened Tables

  /** One `[pieceId, orientation]` entry of a slot array. */
  datatype Piece = Piece(id: int, ori: int)

  /** The two slot arrays. The constructor validates nothing, so any sequences are a state. */
  datatype Cube = Cube(edges: seq<Piece>, corners: seq<Piece>)

  /** Long enough for every slot number in the tables to index both arrays. */
  predicate HasSlots(c: Cube)
  {
    |c.edges| >= NumEdges && |c.corners| >= NumCorners
  }

  /** `s` holds each piece id below `n` exactly once. */
  predicate IsPermutation(s: seq<Piece>, n: nat)
  {
    && |s| == n
    && (forall i :: 0 <= i < n ==> 0 <= s[i].id < n)
    && (forall i, j :: 0 <= i < j < n ==> s[i].id != s[j].id)
  }

  /** Every orientation lies below `m`, the number of ways the piece type can twist. */
  predicate OrientedBelow(s: seq<Piece>, m: nat)
  {
    forall i :: 0 <= i < |s| ==> 0 <= s[i].ori < m
  }

  /** A state a real cube can be in as far as the docstring of `Cube.__init__` describes it. */
  predicate WellFormed(c: Cube)
  {
    && IsPermutation(c.edges, NumEdges) && IsPermutation(c.corners, NumCorners)
    && OrientedBelow(c.edges, 2) && OrientedBelow(c.corners, 3)
  }

  /**
    Both arrays are long enough for the slots the side's turn touches; with shorter lists
    `rotate` raises `IndexError`. The up side (0) only touches slots 0 to 3, so four-entry
    lists can be turned about it.
   */
  predicate CanTurn(c: Cube, side: Side)
  {
    Reach(EdgeCycle(side)) <= |c.edges| && Reach(CornerCycle(side)) <= |c.corners|
  }

  /** Every piece is in its own slot (id equals index) and untwisted (orientation 0). */
  predicate IsSolved(c: Cube)
  {
    && |c.edges| == NumEdges && |c.corners| == NumCorners
    && (forall i :: 0 <= i < NumEdges ==> c.edges[i].id == i && c.edges[i].ori == 0)
    && (forall i :: 0 <= i < NumCorners ==> c.corners[i].id == i && c.corners[i].ori == 0)
  }

  /** The state `Cube()` builds when no lists are passed. */
  function Solved(): (c: Cube)
    ensures IsSolved(c) && WellFormed(c)
  {
    Cube(seq(NumEdges, i => Piece(i, 0)), seq(NumCorners, i => Piece(i, 0)))
  }

  /** The orientation change of one turn: +1 counter-clockwise, -1 clockwise. */
  function Step(ccw: bool): int
  {
    if ccw then 1 else -1
  }

  /** The number of orientations of a piece type: 2 for edges, 3 for corners. */
  type Modulus = m: int | m == 2 || m == 3 witness 2

  /**
    `x % 2` or `x % 3` as Python computes it: for a positive divisor Python's `%`
    and Dafny's agree, and the result is never negative. The two divisors are spelt
    out as literals because the solver reasons about `% 2` and `% 3` far more readily
    than about a symbolic `% m`.
   */
  function Reduce(x: int, m: Modulus): (r: int)
    ensures 0 <= r < m
  {
    if m == 2 then x % 2 else x % 3
  }

  /** A piece with `step` added to its orientation, reduced mod `m`. */
  function Turned(p: Piece, step: int, m: Modulus): (q: Piece)
    ensures q.id == p.id && 0 <= q.ori < m
  {
    Piece(p.id, Reduce(p.ori + step, m))
  }

  /**
    The first loop of `rotate` for one piece type: the orientation of every slot in
    `slots` is changed by `step` mod `m`, one slot after another; the slots are
    distinct, so each changes exactly once and every other slot keeps its piece.
   */
  function Reorient(s: seq<Piece>, slots: seq<int>, step: int, m: Modulus): (r: seq<Piece>)
    requires forall k :: 0 <= k < |slots| ==> 0 <= slots[k] < |s|
    requires forall k, l :: 0 <= k < l < |slots| ==> slots[k] != slots[l]
    ensures |r| == |s|
    ensures forall i :: 0 <= i < |s| ==> r[i] == if i in slots then Turned(s[i], step, m) else s[i]
    decreases |slots|
  {
    if slots == [] then s
    else
      var i := slots[0];
      Reorient(s[i := Turned(s[i], step, m)], slots[1..], step, m)
  }

  /** The slots in the order `rotate` walks them: the cycle, or the cycle reversed for a clockwise turn. */
  function Order(cyc: seq<int>, ccw: bool): (o: seq<int>)
    requires |cyc| == 4
  {
    if ccw then cyc else [cyc[3], cyc[2], cyc[1], cyc[0]]
  }

  /**
    The simultaneous tuple assignment of `rotate`: the slot `o[k]` receives the piece
    that was in `o[k+1]`, and `o[3]` the one that was in `o[0]`.
   */
  function Shift(s: seq<Piece>, o: seq<int>): (r: seq<Piece>)
    requires IsCycle(o, |s|)
    ensures |r| == |s|
    ensures r[o[0]] == s[o[1]] && r[o[1]] == s[o[2]] && r[o[2]] == s[o[3]] && r[o[3]] == s[o[0]]
    ensures forall i :: 0 <= i < |s| && i !in o ==> r[i] == s[i]
  {
    var a, b, c, d := s[o[0]], s[o[1]], s[o[2]], s[o[3]];
    s[o[0] := b][o[1] := c][o[2] := d][o[3] := a]
  }

  /**
    The position in a 4-cycle whose piece moves to position `k`: the next one for a
    counter-clockwise turn, the previous one for a clockwise turn.
   */
  function Src(k: int, ccw: bool): int
  {
    if ccw then (k + 1) % 4 else (k + 3) % 4
  }

  /**
    What one turn does to one slot array, stated slot by slot: `after` differs from
    `before` only on the four slots of `cyc`; slot `cyc[k]` holds the piece that was in
    `cyc[Src(k, ccw)]`, with `Step(ccw)` added to its orientation mod `m`.
   */
  predicate TurnsAlong(before: seq<Piece>, after: seq<Piece>, cyc: seq<int>, ccw: bool, m: Modulus)
  {
    && IsCycle(cyc, |before|) && |after| == |before|
    && (forall i :: 0 <= i < |before| && i !in cyc ==> after[i] == before[i])
    && (forall k {:trigger after[cyc[k]]} :: 0 <= k < 4 ==> after[cyc[k]] == Turned(before[cyc[Src(k, ccw)]], Step(ccw), m))
  }

  /** One turn of one piece type: reorient the slots in walking order, then move their pieces. */
  function TurnSlots(s: seq<Piece>, cyc: seq<int>, ccw: bool, m: Modulus): (r: seq<Piece>)
    requires IsCycle(cyc, |s|)
    ensures TurnsAlong(s, r, cyc, ccw, m)
  {
    var o := Order(cyc, ccw);
    var t := Reorient(s, o, Step(ccw), m);
    OrderVisitsCycle(cyc, ccw);
    var r := Shift(t, o);
    ShiftedTurnsAlong(s, t, r, cyc, ccw, m);
    r
  }

  /** The walking order visits exactly the slots of the cycle, each once. */
  lemma OrderVisitsCycle(cyc: seq<int>, ccw: bool)
    requires |cyc| == 4
    ensures |Order(cyc, ccw)| == 4
    ensures forall i :: i in Order(cyc, ccw) <==> i in cyc
  {
  }

  /** Reorienting the cycle and then shifting it along the walking order is one turn. */
  lemma ShiftedTurnsAlong(s: seq<Piece>, t: seq<Piece>, r: seq<Piece>, cyc: seq<int>, ccw: bool, m: Modulus)
    requires IsCycle(cyc, |s|) && |t| == |s| && |r| == |s|
    requires forall i :: 0 <= i < |s| ==> t[i] == if i in cyc then Turned(s[i], Step(ccw), m) else s[i]
    requires forall i :: 0 <= i < |s| && i !in cyc ==> r[i] == t[i]
    requires ccw ==> r[cyc[0]] == t[cyc[1]] && r[cyc[1]] == t[cyc[2]] && r[cyc[2]] == t[cyc[3]] && r[cyc[3]] == t[cyc[0]]
    requires !ccw ==> r[cyc[3]] == t[cyc[2]] && r[cyc[2]] == t[cyc[1]] && r[cyc[1]] == t[cyc[0]] && r[cyc[0]] == t[cyc[3]]
    ensures TurnsAlong(s, r, cyc, ccw, m)
  {
    assert cyc[0] in cyc && cyc[1] in cyc && cyc[2] in cyc && cyc[3] in cyc;
    if ccw {
      assert Src(0, ccw) == 1 && Src(1, ccw) == 2 && Src(2, ccw) == 3 && Src(3, ccw) == 0;
    } else {
      assert Src(0, ccw) == 3 && Src(1, ccw) == 0 && Src(2, ccw) == 1 && Src(3, ccw) == 2;
    }
  }

  /**
    `Cube.rotate(side, CCW)`. Only the four edge slots of `EdgeRots[side]` and the four
    corner slots of `CornerRots[side]` change. Slot `cycle[k]` receives the piece from
    `cycle[k+1]` (counter-clockwise) or `cycle[k+3]` (clockwise), positions mod 4; a moved
    edge has its orientation toggled, a moved corner has 1 added (counter-clockwise)
    or subtracted (clockwise) mod 3.
   */
  function Rotate(c: Cube, side: Side, ccw: bool): (r: Cube)
    requires CanTurn(c, side)
    ensures |r.edges| == |c.edges| && |r.corners| == |c.corners|
    ensures TurnsAlong(c.edges, r.edges, EdgeCycle(side), ccw, 2)
    ensures TurnsAlong(c.corners, r.corners, CornerCycle(side), ccw, 3)
  {
    Cube(TurnSlots(c.edges, EdgeCycle(side), ccw, 2), TurnSlots(c.corners, CornerCycle(side), ccw, 3))
  }
}
