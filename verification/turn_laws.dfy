/**
  Laws of `Cube.rotate` as main.py writes it: the frame and movement it guarantees,
  permutation and orientation-range preservation, the inverse law, what four
  identical turns do, and the orientation sums a turn keeps or shifts.
 */
module TurnLaws {
  import opened Tables
  import opened CubeState

  /** One `(side, CCW)` call of `rotate`. */
  datatype Move = Move(side: Side, ccw: bool)

  /** The same turn `n` times in a row. */
  function Repeat(c: Cube, side: Side, ccw: bool, n: nat): (r: Cube)
    requires CanTurn(c, side)
    ensures |r.edges| == |c.edges| && |r.corners| == |c.corners|
    decreases n
  {
    if n == 0 then c else Repeat(Rotate(c, side, ccw), side, ccw, n - 1)
  }

  /** A sequence of turns, applied first to last. */
  function ApplyAll(c: Cube, moves: seq<Move>): (r: Cube)
    requires HasSlots(c)
    ensures |r.edges| == |c.edges| && |r.corners| == |c.corners|
    decreases |moves|
  {
    if moves == [] then c else ApplyAll(Rotate(c, moves[0].side, moves[0].ccw), moves[1..])
  }

  /** The sum of all orientations of a slot array. */
  function OriSum(s: seq<Piece>): int
  {
    if s == [] then 0 else s[0].ori + OriSum(s[1..])
  }

  // ---------------------------------------------------------------------------
  // Arithmetic on positions in a 4-cycle and on orientations.

  lemma SrcInRange(k: int, ccw: bool)
    requires 0 <= k < 4
    ensures 0 <= Src(k, ccw) < 4
    ensures Src(Src(k, ccw), !ccw) == k
    ensures Src(Src(Src(Src(k, ccw), ccw), ccw), ccw) == k
  {
  }

  /** Two orientation changes in a row are one change by their sum. */
  lemma TurnedTwice(p: Piece, x: int, y: int, m: Modulus)
    ensures Turned(Turned(p, x, m), y, m) == Turned(p, x + y, m)
  {
  }

  /** A step forward and a step back restore an orientation that was in range. */
  lemma TurnedBack(p: Piece, ccw: bool, m: Modulus)
    requires 0 <= p.ori < m
    ensures Turned(Turned(p, Step(ccw), m), Step(!ccw), m) == p
  {
    TurnedTwice(p, Step(ccw), Step(!ccw), m);
  }

  // ---------------------------------------------------------------------------
  // Laws of one slot array under `TurnsAlong`.

  /** Every slot a turn moves ends with an orientation in range, whatever it held before. */
  lemma TurnsAlongBounds(a: seq<Piece>, b: seq<Piece>, cyc: seq<int>, ccw: bool, m: Modulus)
    requires TurnsAlong(a, b, cyc, ccw, m)
    ensures forall k :: 0 <= k < 4 ==> 0 <= b[cyc[k]].ori < m
    ensures OrientedBelow(a, m) ==> OrientedBelow(b, m)
  {
    if OrientedBelow(a, m) {
      forall i | 0 <= i < |b|
        ensures 0 <= b[i].ori < m
      {
        if i in cyc {
          var k :| 0 <= k < 4 && cyc[k] == i;
        }
      }
    }
  }

  /** Moving four distinct slots along a cycle keeps a permutation a permutation. */
  lemma {:induction false} TurnsAlongPermutation(a: seq<Piece>, b: seq<Piece>, cyc: seq<int>, ccw: bool, m: Modulus, n: nat)
    requires TurnsAlong(a, b, cyc, ccw, m)
    requires IsPermutation(a, n)
    ensures IsPermutation(b, n)
  {
    forall i | 0 <= i < n
      ensures 0 <= b[i].id < n
    {
      if i in cyc {
        var k :| 0 <= k < 4 && cyc[k] == i;
        SrcInRange(k, ccw);
      }
    }
    forall i, j | 0 <= i < j < n
      ensures b[i].id != b[j].id
    {
      if i in cyc {
        var k :| 0 <= k < 4 && cyc[k] == i;
        SrcInRange(k, ccw);
        if j in cyc {
          var l :| 0 <= l < 4 && cyc[l] == j;
          SrcInRange(l, ccw);
          assert Src(k, ccw) != Src(l, ccw) by {
            SrcInRange(k, ccw);
            SrcInRange(l, ccw);
          }
        } else {
          assert cyc[Src(k, ccw)] != j;
        }
      } else if j in cyc {
        var l :| 0 <= l < 4 && cyc[l] == j;
        SrcInRange(l, ccw);
        assert cyc[Src(l, ccw)] != i;
      }
    }
  }

  /** A turn followed by the opposite turn of the same cycle restores an oriented slot array. */
  lemma {:induction false} TurnsAlongUndone(a: seq<Piece>, b: seq<Piece>, c: seq<Piece>, cyc: seq<int>, ccw: bool, m: Modulus)
    requires TurnsAlong(a, b, cyc, ccw, m) && TurnsAlong(b, c, cyc, !ccw, m)
    requires OrientedBelow(a, m)
    ensures c == a
  {
    forall i | 0 <= i < |a|
      ensures c[i] == a[i]
    {
      if i in cyc {
        var k :| 0 <= k < 4 && cyc[k] == i;
        SrcInRange(k, !ccw);
        var j := Src(k, !ccw);
        assert c[cyc[k]] == Turned(b[cyc[j]], Step(!ccw), m);
        assert b[cyc[j]] == Turned(a[cyc[k]], Step(ccw), m);
        TurnedBack(a[cyc[k]], ccw, m);
      }
    }
  }

  /** Four identical turns of a cycle bring every piece home, with `4 * Step(ccw)` added to its orientation. */
  lemma {:induction false} TurnsAlongFour(a: seq<Piece>, b: seq<Piece>, c: seq<Piece>, d: seq<Piece>, e: seq<Piece>,
                                          cyc: seq<int>, ccw: bool, m: Modulus)
    requires TurnsAlong(a, b, cyc, ccw, m) && TurnsAlong(b, c, cyc, ccw, m)
    requires TurnsAlong(c, d, cyc, ccw, m) && TurnsAlong(d, e, cyc, ccw, m)
    ensures |e| == |a|
    ensures forall i :: 0 <= i < |a| && i !in cyc ==> e[i] == a[i]
    ensures forall k :: 0 <= k < 4 ==> e[cyc[k]] == Turned(a[cyc[k]], 4 * Step(ccw), m)
  {
    var st := Step(ccw);
    forall k | 0 <= k < 4
      ensures e[cyc[k]] == Turned(a[cyc[k]], 4 * st, m)
    {
      SrcInRange(k, ccw);
      var k1 := Src(k, ccw);
      SrcInRange(k1, ccw);
      var k2 := Src(k1, ccw);
      SrcInRange(k2, ccw);
      var k3 := Src(k2, ccw);
      SrcInRange(k3, ccw);
      assert Src(k3, ccw) == k;
      assert e[cyc[k]] == Turned(d[cyc[k1]], st, m);
      assert d[cyc[k1]] == Turned(c[cyc[k2]], st, m);
      assert c[cyc[k2]] == Turned(b[cyc[k3]], st, m);
      assert b[cyc[k3]] == Turned(a[cyc[k]], st, m);
      TurnedTwice(a[cyc[k]], st, st, m);
      TurnedTwice(a[cyc[k]], 2 * st, st, m);
      TurnedTwice(a[cyc[k]], 3 * st, st, m);
    }
  }

  /** Four quarter-steps of one direction: an edge is back where it began. */
  lemma FourStepsFlip(p: Piece, ccw: bool)
    requires 0 <= p.ori < 2
    ensures Turned(p, 4 * Step(ccw), 2) == p
  {
  }

  /** Four quarter-steps of one direction: a corner is one step on. */
  lemma FourStepsTwist(p: Piece, ccw: bool)
    ensures Turned(p, 4 * Step(ccw), 3) == Turned(p, Step(ccw), 3)
  {
    if ccw {
      assert (p.ori + 4) % 3 == (p.ori + 1) % 3;
    } else {
      assert (p.ori - 4) % 3 == (p.ori - 1) % 3;
    }
  }

  /** Four identical turns of an edge cycle give back the slot array. */
  lemma {:induction false} EdgesFour(a: seq<Piece>, b: seq<Piece>, c: seq<Piece>, d: seq<Piece>, e: seq<Piece>,
                                     cyc: seq<int>, ccw: bool)
    requires TurnsAlong(a, b, cyc, ccw, 2) && TurnsAlong(b, c, cyc, ccw, 2)
    requires TurnsAlong(c, d, cyc, ccw, 2) && TurnsAlong(d, e, cyc, ccw, 2)
    requires OrientedBelow(a, 2)
    ensures e == a
  {
    TurnsAlongFour(a, b, c, d, e, cyc, ccw, 2);
    forall i | 0 <= i < |a|
      ensures e[i] == a[i]
    {
      if i in cyc {
        var k :| 0 <= k < 4 && cyc[k] == i;
        FourStepsFlip(a[cyc[k]], ccw);
      }
    }
  }

  /** Four identical turns of a corner cycle leave its four corners in place, one twist on. */
  lemma {:induction false} CornersFour(a: seq<Piece>, b: seq<Piece>, c: seq<Piece>, d: seq<Piece>, e: seq<Piece>,
                                       cyc: seq<int>, ccw: bool)
    requires TurnsAlong(a, b, cyc, ccw, 3) && TurnsAlong(b, c, cyc, ccw, 3)
    requires TurnsAlong(c, d, cyc, ccw, 3) && TurnsAlong(d, e, cyc, ccw, 3)
    ensures |e| == |a|
    ensures forall i :: 0 <= i < |a| && i !in cyc ==> e[i] == a[i]
    ensures forall k :: 0 <= k < 4 ==> e[cyc[k]] == Turned(a[cyc[k]], Step(ccw), 3)
  {
    TurnsAlongFour(a, b, c, d, e, cyc, ccw, 3);
    forall k | 0 <= k < 4
      ensures e[cyc[k]] == Turned(a[cyc[k]], Step(ccw), 3)
    {
      FourStepsTwist(a[cyc[k]], ccw);
    }
  }

  /** Replacing one entry changes the orientation sum by the difference of the two orientations. */
  lemma {:induction false} OriSumUpdate(s: seq<Piece>, i: int, p: Piece)
    requires 0 <= i < |s|
    ensures OriSum(s[i := p]) == OriSum(s) - s[i].ori + p.ori
    decreases |s|
  {
    if i == 0 {
      assert s[i := p][1..] == s[1..];
    } else {
      OriSumUpdate(s[1..], i - 1, p);
      assert s[i := p][1..] == s[1..][i - 1 := p];
    }
  }

  /** Replacing four distinct entries changes the orientation sum by the differences. */
  lemma OriSumFour(a: seq<Piece>, cyc: seq<int>, x0: Piece, x1: Piece, x2: Piece, x3: Piece)
    requires IsCycle(cyc, |a|)
    ensures OriSum(a[cyc[0] := x0][cyc[1] := x1][cyc[2] := x2][cyc[3] := x3])
         == OriSum(a) - a[cyc[0]].ori - a[cyc[1]].ori - a[cyc[2]].ori - a[cyc[3]].ori
            + x0.ori + x1.ori + x2.ori + x3.ori
  {
    var s1 := a[cyc[0] := x0];
    var s2 := s1[cyc[1] := x1];
    var s3 := s2[cyc[2] := x2];
    OriSumUpdate(a, cyc[0], x0);
    OriSumUpdate(s1, cyc[1], x1);
    OriSumUpdate(s2, cyc[2], x2);
    OriSumUpdate(s3, cyc[3], x3);
  }

  /** Adding `st` to four orientations mod `m` changes their sum by `4 * st`, modulo `m`. */
  lemma FourStepsDrift(z0: int, z1: int, z2: int, z3: int, st: int, m: Modulus)
    ensures var drift := Reduce(z0 + st, m) + Reduce(z1 + st, m) + Reduce(z2 + st, m) + Reduce(z3 + st, m)
                         - (z0 + z1 + z2 + z3) - 4 * st;
      && (m == 2 ==> drift % 2 == 0)
      && (m == 3 ==> drift % 3 == 0)
  {
  }

  /** When only the four cycled slots differ, only their orientations change the sum. */
  lemma OriSumOutsideCycle(a: seq<Piece>, b: seq<Piece>, cyc: seq<int>)
    requires IsCycle(cyc, |a|) && |b| == |a|
    requires forall i :: 0 <= i < |a| && i !in cyc ==> b[i] == a[i]
    ensures OriSum(b) == OriSum(a) - a[cyc[0]].ori - a[cyc[1]].ori - a[cyc[2]].ori - a[cyc[3]].ori
                         + b[cyc[0]].ori + b[cyc[1]].ori + b[cyc[2]].ori + b[cyc[3]].ori
  {
    var u := a[cyc[0] := b[cyc[0]]][cyc[1] := b[cyc[1]]][cyc[2] := b[cyc[2]]][cyc[3] := b[cyc[3]]];
    forall i | 0 <= i < |b|
      ensures b[i] == u[i]
    {
      if i !in cyc {
        assert b[i] == a[i];
      }
    }
    assert b == u;
    OriSumFour(a, cyc, b[cyc[0]], b[cyc[1]], b[cyc[2]], b[cyc[3]]);
  }

  /** Whichever direction, the four cycled slots receive the four cycled pieces, each turned once. */
  lemma TurnsAlongCycleSum(a: seq<Piece>, b: seq<Piece>, cyc: seq<int>, ccw: bool, m: Modulus)
    requires TurnsAlong(a, b, cyc, ccw, m)
    ensures var st := Step(ccw);
      b[cyc[0]].ori + b[cyc[1]].ori + b[cyc[2]].ori + b[cyc[3]].ori
      == Reduce(a[cyc[0]].ori + st, m) + Reduce(a[cyc[1]].ori + st, m)
         + Reduce(a[cyc[2]].ori + st, m) + Reduce(a[cyc[3]].ori + st, m)
  {
    if ccw {
      assert Src(0, ccw) == 1 && Src(1, ccw) == 2 && Src(2, ccw) == 3 && Src(3, ccw) == 0;
    } else {
      assert Src(0, ccw) == 3 && Src(1, ccw) == 0 && Src(2, ccw) == 1 && Src(3, ccw) == 2;
    }
  }

  /** A turn changes the orientation sum of its slot array by `4 * Step(ccw)`, modulo `m`. */
  lemma {:induction false} TurnsAlongSum(a: seq<Piece>, b: seq<Piece>, cyc: seq<int>, ccw: bool, m: Modulus)
    requires TurnsAlong(a, b, cyc, ccw, m)
    ensures m == 2 ==> OriSum(b) % 2 == OriSum(a) % 2
    ensures m == 3 ==> OriSum(b) % 3 == (OriSum(a) + Step(ccw)) % 3
  {
    OriSumOutsideCycle(a, b, cyc);
    TurnsAlongCycleSum(a, b, cyc, ccw, m);
    FourStepsDrift(a[cyc[0]].ori, a[cyc[1]].ori, a[cyc[2]].ori, a[cyc[3]].ori, Step(ccw), m);
    if m == 2 {
      ParityFromDrift(OriSum(b), OriSum(a), Step(ccw));
    } else {
      TwistFromDrift(OriSum(b), OriSum(a), Step(ccw));
    }
  }

  // ---------------------------------------------------------------------------
  // Laws of `Rotate`.

  /**
    Both directions toggle a moved edge (`(o+1) % 2 == (o-1) % 2`); every moved edge ends
    in {0, 1} and every moved corner in {0, 1, 2}; orientations in range stay in range.
   */
  lemma RotateOrientation(c: Cube, side: Side, ccw: bool)
    requires HasSlots(c)
    ensures var r := Rotate(c, side, ccw);
      && (forall k :: 0 <= k < 4 ==>
            r.edges[EdgeCycle(side)[k]].ori == (c.edges[EdgeCycle(side)[Src(k, ccw)]].ori + 1) % 2)
      && (forall k :: 0 <= k < 4 ==> 0 <= r.edges[EdgeCycle(side)[k]].ori < 2)
      && (forall k :: 0 <= k < 4 ==> 0 <= r.corners[CornerCycle(side)[k]].ori < 3)
      && (OrientedBelow(c.edges, 2) ==> OrientedBelow(r.edges, 2))
      && (OrientedBelow(c.corners, 3) ==> OrientedBelow(r.corners, 3))
  {
    var r := Rotate(c, side, ccw);
    TurnsAlongBounds(c.edges, r.edges, EdgeCycle(side), ccw, 2);
    TurnsAlongBounds(c.corners, r.corners, CornerCycle(side), ccw, 3);
  }

  /** A turn keeps both id arrays permutations, so a well-formed state stays well-formed. */
  lemma RotateWellFormed(c: Cube, side: Side, ccw: bool)
    requires HasSlots(c)
    ensures IsPermutation(c.edges, NumEdges) ==> IsPermutation(Rotate(c, side, ccw).edges, NumEdges)
    ensures IsPermutation(c.corners, NumCorners) ==> IsPermutation(Rotate(c, side, ccw).corners, NumCorners)
    ensures WellFormed(c) ==> WellFormed(Rotate(c, side, ccw))
  {
    var r := Rotate(c, side, ccw);
    if IsPermutation(c.edges, NumEdges) {
      TurnsAlongPermutation(c.edges, r.edges, EdgeCycle(side), ccw, 2, NumEdges);
    }
    if IsPermutation(c.corners, NumCorners) {
      TurnsAlongPermutation(c.corners, r.corners, CornerCycle(side), ccw, 3, NumCorners);
    }
    RotateOrientation(c, side, ccw);
  }

  /** Any sequence of turns keeps a well-formed state well-formed. */
  lemma {:induction false} ApplyAllWellFormed(c: Cube, moves: seq<Move>)
    requires WellFormed(c)
    ensures WellFormed(ApplyAll(c, moves))
    decreases |moves|
  {
    if moves != [] {
      RotateWellFormed(c, moves[0].side, moves[0].ccw);
      ApplyAllWellFormed(Rotate(c, moves[0].side, moves[0].ccw), moves[1..]);
    }
  }

  /** A turn followed by the opposite turn of the same side, in either order, changes nothing. */
  lemma InverseTurns(c: Cube, side: Side, ccw: bool)
    requires HasSlots(c) && OrientedBelow(c.edges, 2) && OrientedBelow(c.corners, 3)
    ensures Rotate(Rotate(c, side, ccw), side, !ccw) == c
  {
    var r := Rotate(c, side, ccw);
    var r' := Rotate(r, side, !ccw);
    TurnsAlongUndone(c.edges, r.edges, r'.edges, EdgeCycle(side), ccw, 2);
    TurnsAlongUndone(c.corners, r.corners, r'.corners, CornerCycle(side), ccw, 3);
  }

  /** `Repeat` four times is four nested turns. */
  lemma RepeatFour(c: Cube, side: Side, ccw: bool)
    requires HasSlots(c)
    ensures Repeat(c, side, ccw, 4)
         == Rotate(Rotate(Rotate(Rotate(c, side, ccw), side, ccw), side, ccw), side, ccw)
  {
    var c1 := Rotate(c, side, ccw);
    var c2 := Rotate(c1, side, ccw);
    var c3 := Rotate(c2, side, ccw);
    assert Repeat(c3, side, ccw, 1) == Rotate(c3, side, ccw);
    assert Repeat(c2, side, ccw, 2) == Repeat(c3, side, ccw, 1);
    assert Repeat(c1, side, ccw, 3) == Repeat(c2, side, ccw, 2);
  }

  /** Four nested turns give back every edge, id and orientation. */
  lemma FourRotationsEdges(c: Cube, side: Side, ccw: bool)
    requires HasSlots(c) && OrientedBelow(c.edges, 2)
    ensures Rotate(Rotate(Rotate(Rotate(c, side, ccw), side, ccw), side, ccw), side, ccw).edges == c.edges
  {
    var c1 := Rotate(c, side, ccw);
    var c2 := Rotate(c1, side, ccw);
    var c3 := Rotate(c2, side, ccw);
    var c4 := Rotate(c3, side, ccw);
    EdgesFour(c.edges, c1.edges, c2.edges, c3.edges, c4.edges, EdgeCycle(side), ccw);
  }

  /** Four nested turns leave every corner in its slot and twist the four on the face once. */
  lemma FourRotationsCorners(c: Cube, side: Side, ccw: bool)
    requires HasSlots(c)
    ensures var r := Rotate(Rotate(Rotate(Rotate(c, side, ccw), side, ccw), side, ccw), side, ccw);
      && |r.corners| == |c.corners|
      && (forall i :: 0 <= i < |c.corners| && i !in CornerCycle(side) ==> r.corners[i] == c.corners[i])
      && (forall k :: 0 <= k < 4 ==>
            r.corners[CornerCycle(side)[k]] == Turned(c.corners[CornerCycle(side)[k]], Step(ccw), 3))
  {
    var c1 := Rotate(c, side, ccw);
    var c2 := Rotate(c1, side, ccw);
    var c3 := Rotate(c2, side, ccw);
    var c4 := Rotate(c3, side, ccw);
    CornersFour(c.corners, c1.corners, c2.corners, c3.corners, c4.corners, CornerCycle(side), ccw);
  }

  /** Four identical turns give back every edge, id and orientation. */
  lemma FourTurnsEdges(c: Cube, side: Side, ccw: bool)
    requires HasSlots(c) && OrientedBelow(c.edges, 2)
    ensures Repeat(c, side, ccw, 4).edges == c.edges
  {
    RepeatFour(c, side, ccw);
    FourRotationsEdges(c, side, ccw);
  }

  /**
    Four identical turns put every corner back in its slot, but each of the four cycled
    corners ends twisted once more in the turn's direction: +1 counter-clockwise, -1
    clockwise, mod 3.
   */
  lemma FourTurnsCorners(c: Cube, side: Side, ccw: bool)
    requires HasSlots(c)
    ensures var r := Repeat(c, side, ccw, 4);
      && |r.corners| == |c.corners|
      && (forall i :: 0 <= i < |c.corners| && i !in CornerCycle(side) ==> r.corners[i] == c.corners[i])
      && (forall k :: 0 <= k < 4 ==>
            && r.corners[CornerCycle(side)[k]].id == c.corners[CornerCycle(side)[k]].id
            && r.corners[CornerCycle(side)[k]].ori == (c.corners[CornerCycle(side)[k]].ori + Step(ccw)) % 3)
  {
    RepeatFour(c, side, ccw);
    FourRotationsCorners(c, side, ccw);
    TwistedOnce(c.corners, Repeat(c, side, ccw, 4).corners, CornerCycle(side), ccw);
  }

  /** The four corner facts of `FourRotationsCorners`, read as ids and orientations mod 3. */
  lemma TwistedOnce(a: seq<Piece>, r: seq<Piece>, cyc: seq<int>, ccw: bool)
    requires |cyc| == 4 && forall k :: 0 <= k < 4 ==> 0 <= cyc[k] < |a| && cyc[k] < |r|
    requires forall k :: 0 <= k < 4 ==> r[cyc[k]] == Turned(a[cyc[k]], Step(ccw), 3)
    ensures forall k :: 0 <= k < 4 ==> r[cyc[k]].id == a[cyc[k]].id && r[cyc[k]].ori == (a[cyc[k]].ori + Step(ccw)) % 3
  {
  }

  /**
    Twelve identical turns give the state back: four of them restore the edges, and three
    rounds of four twist each face corner by three steps of the same sign, which is 0 mod 3.
    So the period of a face turn under the flat orientation rule of `rotate` is 12, not 4.
   */
  lemma TwelveTurns(c: Cube, side: Side, ccw: bool)
    requires HasSlots(c) && OrientedBelow(c.edges, 2) && OrientedBelow(c.corners, 3)
    ensures Repeat(Repeat(Repeat(c, side, ccw, 4), side, ccw, 4), side, ccw, 4) == c
  {
    var r1 := Repeat(c, side, ccw, 4);
    var r2 := Repeat(r1, side, ccw, 4);
    var r3 := Repeat(r2, side, ccw, 4);
    FourTurnsEdges(c, side, ccw);
    FourTurnsEdges(r1, side, ccw);
    FourTurnsEdges(r2, side, ccw);
    FourTurnsTwisted(c, side, ccw);
    FourTurnsTwisted(r1, side, ccw);
    FourTurnsTwisted(r2, side, ccw);
    ThreeTwists(c.corners, r1.corners, r2.corners, r3.corners, CornerCycle(side), ccw);
  }

  /** `r` is `a` with the four slots of `cyc` twisted once by the step and nothing else changed. */
  predicate TwistedCycle(a: seq<Piece>, r: seq<Piece>, cyc: seq<int>, ccw: bool)
    requires |cyc| == 4 && forall k :: 0 <= k < 4 ==> 0 <= cyc[k] < |a|
  {
    && |r| == |a|
    && (forall i :: 0 <= i < |a| && i !in cyc ==> r[i] == a[i])
    && (forall k :: 0 <= k < 4 ==> r[cyc[k]].id == a[cyc[k]].id && r[cyc[k]].ori == (a[cyc[k]].ori + Step(ccw)) % 3)
  }

  /** `FourTurnsCorners` packaged as one fact. */
  lemma FourTurnsTwisted(c: Cube, side: Side, ccw: bool)
    requires HasSlots(c)
    ensures TwistedCycle(c.corners, Repeat(c, side, ccw, 4).corners, CornerCycle(side), ccw)
  {
    FourTurnsCorners(c, side, ccw);
  }

  /** Three rounds of one twist on the same four corners bring an oriented corner array back. */
  lemma ThreeTwists(a: seq<Piece>, b: seq<Piece>, d: seq<Piece>, e: seq<Piece>, cyc: seq<int>, ccw: bool)
    requires IsCycle(cyc, |a|) && OrientedBelow(a, 3)
    requires TwistedCycle(a, b, cyc, ccw) && TwistedCycle(b, d, cyc, ccw) && TwistedCycle(d, e, cyc, ccw)
    ensures e == a
  {
    forall i | 0 <= i < |a|
      ensures e[i] == a[i]
    {
      if i in cyc {
        var k :| 0 <= k < 4 && cyc[k] == i;
        ThreeSteps(a[i].ori, ccw);
      }
    }
  }

  /** Three steps of the same sign, mod 3, come back to where they started. */
  lemma ThreeSteps(x: int, ccw: bool)
    requires 0 <= x < 3
    ensures (((x + Step(ccw)) % 3 + Step(ccw)) % 3 + Step(ccw)) % 3 == x
  { }

  /** A single step always changes a corner's orientation. */
  lemma StepTwists(p: Piece, ccw: bool)
    ensures Turned(p, Step(ccw), 3).ori != p.ori
  {
  }

  /** So four identical turns never give back the state they started from. */
  lemma FourTurnsNeverIdentity(c: Cube, side: Side, ccw: bool)
    requires HasSlots(c)
    ensures Repeat(c, side, ccw, 4) != c
  {
    RepeatFour(c, side, ccw);
    FourRotationsCorners(c, side, ccw);
    var i := CornerCycle(side)[0];
    StepTwists(c.corners[i], ccw);
  }

  /** A turn keeps the total edge orientation even or odd: it flips exactly four edges. */
  lemma EdgeFlipParity(c: Cube, side: Side, ccw: bool)
    requires HasSlots(c)
    ensures OriSum(Rotate(c, side, ccw).edges) % 2 == OriSum(c.edges) % 2
  {
    var r := Rotate(c, side, ccw);
    TurnsAlongSum(c.edges, r.edges, EdgeCycle(side), ccw, 2);
  }

  // `TurnSlotsTwist` and `RotateCornersTwist` are proof steps for `CornerTwistDrift`: they
  // apply `TurnsAlongSum` to a bare corner array first, so that the solver does not have to
  // unfold `Rotate` and the sum at the same time.

  /** One corner-cycle turn, on a bare corner array, shifts the orientation sum by `Step(ccw)` mod 3. */
  lemma TurnSlotsTwist(a: seq<Piece>, cyc: seq<int>, ccw: bool)
    requires IsCycle(cyc, |a|)
    ensures OriSum(TurnSlots(a, cyc, ccw, 3)) % 3 == (OriSum(a) + Step(ccw)) % 3
  {
    TurnsAlongSum(a, TurnSlots(a, cyc, ccw, 3), cyc, ccw, 3);
  }

  /** The corner half of a turn is the corner cycle's `TurnSlots`. */
  lemma RotateCornersTwist(c: Cube, side: Side, ccw: bool)
    requires HasSlots(c)
    ensures Rotate(c, side, ccw).corners == TurnSlots(c.corners, CornerCycle(side), ccw, 3)
    ensures OriSum(TurnSlots(c.corners, CornerCycle(side), ccw, 3)) % 3 == (OriSum(c.corners) + Step(ccw)) % 3
  {
    TurnSlotsTwist(c.corners, CornerCycle(side), ccw);
  }

  /**
    A turn shifts the total corner orientation by +1 (counter-clockwise) or -1 (clockwise)
    mod 3: the four corners each gain `Step(ccw)`, and 4 is 1 mod 3.
   */
  lemma CornerTwistDrift(c: Cube, side: Side, ccw: bool)
    requires HasSlots(c)
    ensures OriSum(Rotate(c, side, ccw).corners) % 3 == (OriSum(c.corners) + Step(ccw)) % 3
  {
    RotateCornersTwist(c, side, ccw);
  }

  lemma ParityFromDrift(x: int, y: int, d: int)
    requires d == 1 || d == -1
    requires (x - y - 4 * d) % 2 == 0
    ensures x % 2 == y % 2
  {
  }

  lemma TwistFromDrift(x: int, y: int, d: int)
    requires d == 1 || d == -1
    requires (x - y - 4 * d) % 3 == 0
    ensures x % 3 == (y + d) % 3
  {
  }

  /** The slots U and F cycle, read off `edge_rots` and `corner_rots`. */
  lemma UpAndFrontCycles()
    ensures EdgeCycle(0) == [0, 3, 2, 1] && EdgeCycle(1) == [0, 4, 8, 7]
    ensures CornerCycle(1) == [0, 4, 7, 3]
  {
  }

  /** Slot 7 after U-then-F and after F-then-U, on bare edge arrays. */
  lemma UpFrontSlotSeven(a: seq<Piece>, u: seq<Piece>, uf: seq<Piece>, f: seq<Piece>, fu: seq<Piece>)
    requires |a| >= NumEdges
    requires TurnsAlong(a, u, [0, 3, 2, 1], true, 2) && TurnsAlong(u, uf, [0, 4, 8, 7], true, 2)
    requires TurnsAlong(a, f, [0, 4, 8, 7], true, 2) && TurnsAlong(f, fu, [0, 3, 2, 1], true, 2)
    ensures uf[7].id == a[3].id && fu[7].id == a[0].id
  {
    var cu: seq<int> := [0, 3, 2, 1];
    var cf: seq<int> := [0, 4, 8, 7];
    assert Src(0, true) == 1 && Src(3, true) == 0;
    assert u[cu[0]] == Turned(a[cu[1]], 1, 2);
    assert uf[cf[3]] == Turned(u[cf[0]], 1, 2);
    assert f[cf[3]] == Turned(a[cf[0]], 1, 2);
    assert 7 !in cu;
  }

  /**
    Turning U then F differs from turning F then U whenever edge slots 0 and 3 hold
    different pieces: after U-then-F slot 7 holds what slot 3 held, after F-then-U it holds
    what slot 0 held.
   */
  lemma TurnsDoNotCommute(c: Cube)
    requires HasSlots(c) && c.edges[0].id != c.edges[3].id
    ensures Rotate(Rotate(c, 0, true), 1, true).edges[7].id == c.edges[3].id
    ensures Rotate(Rotate(c, 1, true), 0, true).edges[7].id == c.edges[0].id
    ensures Rotate(Rotate(c, 0, true), 1, true) != Rotate(Rotate(c, 1, true), 0, true)
  {
    var u := Rotate(c, 0, true);
    var f := Rotate(c, 1, true);
    UpAndFrontCycles();
    UpFrontSlotSeven(c.edges, u.edges, Rotate(u, 1, true).edges, f.edges, Rotate(f, 0, true).edges);
  }

  /** The corners of the demo, on bare corner arrays: F's four corners twisted once, the rest solved. */
  lemma DemoCorners(a: seq<Piece>, r: seq<Piece>)
    requires |a| == NumCorners && forall i :: 0 <= i < NumCorners ==> a[i] == Piece(i, 0)
    requires |r| == |a|
    requires forall i :: 0 <= i < |a| && i !in [0, 4, 7, 3] ==> r[i] == a[i]
    requires forall k :: 0 <= k < 4 ==> r[[0, 4, 7, 3][k]] == Turned(a[[0, 4, 7, 3][k]], 1, 3)
    ensures forall i :: 0 <= i < NumCorners ==> r[i] == Piece(i, if i in [0, 3, 4, 7] then 1 else 0)
  {
    var cyc: seq<int> := [0, 4, 7, 3];
    forall i | 0 <= i < NumCorners
      ensures r[i] == Piece(i, if i in [0, 3, 4, 7] then 1 else 0)
    {
      if i in cyc {
        var k :| 0 <= k < 4 && cyc[k] == i;
        assert r[cyc[k]] == Turned(a[cyc[k]], 1, 3);
      }
    }
  }

  /**
    The script at the end of main.py: four counter-clockwise turns of F from the solved
    state leave every edge solved and every corner in place, but corners 0, 3, 4 and 7
    twisted once, so the result is not the solved state.
   */
  lemma DemoScenario(c: Cube)
    requires IsSolved(c)
    ensures var r := Repeat(c, 1, true, 4);
      && r.edges == c.edges
      && |r.corners| == NumCorners
      && (forall i :: 0 <= i < NumCorners ==> r.corners[i].id == i)
      && (forall i :: 0 <= i < NumCorners ==> r.corners[i].ori == if i in [0, 3, 4, 7] then 1 else 0)
      && !IsSolved(r)
  {
    FourTurnsEdges(c, 1, true);
    RepeatFour(c, 1, true);
    FourRotationsCorners(c, 1, true);
    UpAndFrontCycles();
    var r := Repeat(c, 1, true, 4);
    DemoCorners(c.corners, r.corners);
    assert r.corners[0].ori == 1;
  }
}
