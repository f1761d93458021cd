/**
  The constant tables of main.py: the per-face 4-cycles of edge and corner slots,
  the face letters bordering each slot, the colours each piece shows when solved,
  the letter and colour of each side, and the order in which pieces are drawn.
  Python dictionaries keyed 0..n-1 become sequences indexed by the same keys.
 */
module Tables {

  /** A side id, a key of `sides`: U=0, F=1, R=2, B=3, L=4, D=5. */
  type Side = s: int | 0 <= s < 6

  const NumEdges: nat := 12
  const NumCorners: nat := 8

  /** `edge_rots`: the four edge slots a turn of each side cycles. */
  const EdgeRots: seq<seq<int>> :=
    [[0, 3, 2, 1], [0, 4, 8, 7], [1, 5, 9, 4], [2, 6, 10, 5], [3, 7, 11, 6], [8, 9, 10, 11]]

  /** `corner_rots`: the four corner slots a turn of each side cycles. */
  const CornerRots: seq<seq<int>> :=
    [[0, 3, 2, 1], [0, 4, 7, 3], [0, 1, 5, 4], [1, 2, 6, 5], [2, 3, 7, 6], [4, 5, 6, 7]]

  /** `edge_colors`: the colours of each edge piece, in its solved order. */
  const EdgeColors: seq<string> :=
    ["WG", "WR", "WB", "WO", "GR", "RB", "BO", "OG", "YG", "YR", "YB", "YO"]

  /** `edge_positions`: the face letters bordering each edge slot. */
  const EdgePositions: seq<string> :=
    ["UF", "UR", "UB", "UL", "FR", "RB", "BL", "LF", "DF", "DR", "DB", "DL"]

  /** `corner_colors`: the colours of each corner piece, in its solved order, as written. */
  const CornerColors: seq<string> :=
    ["WGR", "WRB", "WBO", "WOG", "YRG", "YBR", "YBO", "YGO"]

  /**
    The corner colour table with entry 4 in the order of its slot's face letters
    ("DFR" shows yellow, green, red); every other entry is as written.
   */
  const CornerColorsCorrected: seq<string> := CornerColors[4 := "YGR"]

  /** `corner_positions`: the face letters bordering each corner slot. */
  const CornerPositions: seq<string> :=
    ["UFR", "URB", "UBL", "ULF", "DFR", "DBR", "DBL", "DFL"]

  /** `sides`: the letter and the solved colour of each side. */
  const Sides: seq<(char, char)> :=
    [('U', 'W'), ('F', 'G'), ('R', 'R'), ('B', 'B'), ('L', 'O'), ('D', 'Y')]

  /**
    `piece_order`: the eight pieces drawn on each side, row by row without the
    centre; `true` marks an edge, the number is the slot.
   */
  const PieceOrder: seq<seq<(bool, int)>> :=
    [ [(false, 2), (true, 2), (false, 1), (true, 3), (true, 1), (false, 3), (true, 0), (false, 0)],
      [(false, 3), (true, 0), (false, 0), (true, 7), (true, 4), (false, 7), (true, 8), (false, 4)],
      [(false, 0), (true, 1), (false, 1), (true, 4), (true, 5), (false, 4), (true, 9), (false, 5)],
      [(false, 6), (true, 10), (false, 5), (true, 6), (true, 5), (false, 2), (true, 2), (false, 1)],
      [(false, 2), (true, 3), (false, 3), (true, 6), (true, 7), (false, 6), (true, 11), (false, 7)],
      [(false, 7), (true, 8), (false, 4), (true, 11), (true, 9), (false, 6), (true, 10), (false, 5)] ]

  function Letter(side: Side): char { Sides[side].0 }

  function Color(side: Side): char { Sides[side].1 }

  /** Which corner colour table a lookup uses: main.py's, or the one with entry 4 corrected. */
  datatype Palette = AsWritten | Corrected

  function CornerColorTable(pal: Palette): seq<string>
  {
    match pal
    case AsWritten => CornerColors
    case Corrected => CornerColorsCorrected
  }

  /** Four distinct slots below `n`: what a cycle must be for a turn to permute pieces. */
  predicate IsCycle(cyc: seq<int>, n: int)
  {
    && |cyc| == 4
    && (forall k :: 0 <= k < 4 ==> 0 <= cyc[k] < n)
    && (forall k, l :: 0 <= k < l < 4 ==> cyc[k] != cyc[l])
  }

  /** One more than the largest slot of a cycle: the fewest entries a list needs for a turn to index it. */
  function Reach(cyc: seq<int>): (n: int)
    requires |cyc| == 4
    ensures forall k :: 0 <= k < 4 ==> cyc[k] < n
    ensures exists k :: 0 <= k < 4 && n == cyc[k] + 1
  {
    var a := if cyc[0] < cyc[1] then cyc[1] else cyc[0];
    var b := if cyc[2] < cyc[3] then cyc[3] else cyc[2];
    1 + (if a < b then b else a)
  }

  /**
    How many entries each side's turn needs in the edge and corner lists: the up side
    indexes only slots 0 to 3, the front side edge slots up to 8 and corner slots up to 7.
   */
  lemma CycleReach(side: Side)
    ensures Reach(EdgeRots[side]) == [4, 9, 10, 11, 12, 12][side]
    ensures Reach(CornerRots[side]) == [4, 8, 6, 7, 8, 8][side]
  {
  }

  /** `edge_rots[side]`: four distinct edge slots. */
  function EdgeCycle(side: Side): (cyc: seq<int>)
    ensures IsCycle(cyc, NumEdges) && Reach(cyc) <= NumEdges
  {
    CyclesAreCycles(side);
    EdgeRots[side]
  }

  /** `corner_rots[side]`: four distinct corner slots. */
  function CornerCycle(side: Side): (cyc: seq<int>)
    ensures IsCycle(cyc, NumCorners) && Reach(cyc) <= NumCorners
  {
    CyclesAreCycles(side);
    CornerRots[side]
  }

  /** Every face cycle is four distinct slots in range. */
  lemma CyclesAreCycles(side: Side)
    ensures IsCycle(EdgeRots[side], NumEdges) && IsCycle(CornerRots[side], NumCorners)
  {
  }

  /**
    The edge slots a side's turn cycles are exactly the edge slots whose face letters
    include that side's letter, so `.index` of the letter never fails on them.
   */
  lemma EdgeCycleIsFaceSlots(side: Side)
    ensures forall i :: 0 <= i < NumEdges ==> (i in EdgeRots[side] <==> Letter(side) in EdgePositions[i])
  {
    forall i | 0 <= i < NumEdges
      ensures i in EdgeRots[side] <==> Letter(side) in EdgePositions[i]
    {
      assert EdgePositions[i] == [EdgePositions[i][0], EdgePositions[i][1]];
    }
  }

  /** The corner counterpart of `EdgeCycleIsFaceSlots`. */
  lemma CornerCycleIsFaceSlots(side: Side)
    ensures forall i :: 0 <= i < NumCorners ==> (i in CornerRots[side] <==> Letter(side) in CornerPositions[i])
  {
    forall i | 0 <= i < NumCorners
      ensures i in CornerRots[side] <==> Letter(side) in CornerPositions[i]
    {
      assert CornerPositions[i] == [CornerPositions[i][0], CornerPositions[i][1], CornerPositions[i][2]];
    }
  }
}
