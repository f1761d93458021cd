# Rubik's cube state engine

A Dafny model of the cube state kept by `main.py`: the lookup tables at the top of the
file, the `Cube` class with its two slot arrays, the face turn `Cube.rotate`, and the two
helpers behind `Cube.visualize`. `get_color` gives the colour a piece shows on a side.
`get_lines` gives the 3x3 grid a side is drawn as.

A state is two sequences of `Piece(id, ori)`: twelve edge slots and eight corner slots.
The index is the slot. `id` names the physical piece that sits there. `ori` is its twist:
0 or 1 for edges, 0, 1 or 2 for corners. A turn of side `s` is a pure function
`CubeState.Rotate`. It moves the four edges of `edge_rots[s]` and the four corners of
`corner_rots[s]` one place along their cycle. Counter-clockwise, slot `cyc[k]` receives
the piece from `cyc[k+1]`; clockwise, from `cyc[k-1]` (positions mod 4). Every moved edge has its orientation toggled. Every moved corner has 1 added
(counter-clockwise) or subtracted (clockwise), mod 3. This is the rule the code applies,
and it does not depend on the slot or the side.

Modules:

- `Options` (options.dfy): `Option`, the result of a lookup that Python would raise on.
- `Tables` (tables.dfy): the dictionaries of main.py as sequences indexed by their keys.
  It also holds the `Palette` switch between the corner colour table as written and
  the corrected one (see Findings).
- `CubeState` (cube.dfy): the state, the solved state built by `Cube()`, and one turn.
  The turn is built the way `rotate` builds it: reorient the slots in walking order,
  then shift them by the four-way tuple assignment. It is specified slot by slot by
  `TurnsAlong`.
- `TurnLaws` (turn_laws.dfy): laws of turns. They cover permutations and bounds, the
  inverse turn, four identical turns, the orientation sums, non-commuting turns, and the
  demo at the bottom of main.py as a scenario.
- `Visualize` (visualize.dfy): `get_color`, the cell-index arithmetic and `get_lines`,
  with the lookups that can fail made explicit.

Python raises `KeyError` on a dictionary key that is out of range. It raises `ValueError`
when `.index` finds no letter. In the model both are `None`. Sequence indices in the
model never wrap, because the Python tables are dictionaries and not lists.

## Model

| member | source | states |
|---|---|---|
| Tables.EdgeCycleIsFaceSlots | main.py:1-48 | A slot is in the edge cycle of a side exactly when that side's letter is among the slot's face letters in `edge_positions`. |
| Tables.CornerCycleIsFaceSlots | main.py:10-70 | A slot is in the corner cycle of a side exactly when that side's letter is among the slot's face letters in `corner_positions`. |
| CubeState.Solved | main.py:97-104 | `Cube()` with no arguments gives every piece in its own slot with orientation 0, and the state is well formed: each id occurs once and every orientation is in range. |
| CubeState.Reorient | main.py:117-126 | The reorient loop changes the orientation of exactly the listed slots, each once, by the step mod 2 or 3, and leaves every other slot alone. |
| CubeState.Shift | main.py:127-130 | The simultaneous tuple assignment moves the piece of walking position k+1 into position k, and the one of position 0 into position 3. Slots outside the cycle are untouched. |
| Tables.CycleReach | main.py:1-18 | The up side's turn indexes only slots 0 to 3 of either list. The other sides need 9, 10, 11, 12, 12 edge entries and 8, 6, 7, 8, 8 corner entries. |
| CubeState.TurnSlots | main.py:117-130 | One piece type's half of `rotate`: reorienting the four slots in walking order and then shifting them moves each slot's piece one place along the cycle, with its orientation stepped. Every other slot is unchanged. |
| CubeState.Rotate | main.py:106-130 | A turn is defined whenever both lists are long enough for the side's cycles. Only the four slots of the side's edge and corner cycles change. Slot `cyc[k]` receives the piece from `cyc[k+1]` (counter-clockwise) or `cyc[k-1]` (clockwise), with its orientation toggled (edge) or moved by +1/-1 mod 3 (corner). |
| TurnLaws.TurnsAlongPermutation | main.py:127-130 | Moving four distinct slots along a cycle keeps a permutation of piece ids a permutation. |
| TurnLaws.TurnsAlongBounds | main.py:117-126 | Every moved slot ends with an orientation below its modulus, whatever it held before. In-range orientations therefore stay in range. |
| TurnLaws.RotateWellFormed | main.py:106-130 | A turn maps a well-formed state to a well-formed state. It keeps each id array a permutation separately. |
| TurnLaws.ApplyAllWellFormed | main.py:106-130 | Any sequence of turns keeps a well-formed state well-formed. |
| TurnLaws.InverseTurns | main.py:106-130 | A turn followed by the opposite turn of the same side gives back the state, in both directions. It needs only that orientations start in range. |
| TurnLaws.FourTurnsEdges | main.py:117-130 | Four identical turns give back every edge slot, id and orientation, when every edge orientation starts at 0 or 1. An orientation of 3, say, comes back as 1. |
| TurnLaws.FourTurnsCorners | main.py:121-130 | Four identical turns keep every corner in its slot. The four corners of the face come back twisted by +1 (counter-clockwise) or -1 (clockwise) mod 3, and every other corner is unchanged. |
| TurnLaws.TwelveTurns | main.py:117-130 | Twelve identical turns give back the state, when edge orientations start at 0 or 1 and corner orientations at 0, 1 or 2. Four turns restore the edges, and three rounds of four turns twist each face corner by three equal steps, which is 0 mod 3. |
| TurnLaws.FourTurnsNeverIdentity | main.py:121-126 | Four identical turns never give back the state they started from. |
| TurnLaws.EdgeFlipParity | main.py:117-120 | A turn keeps the sum of the edge orientations even or odd. |
| TurnLaws.CornerTwistDrift | main.py:121-126 | A turn shifts the sum of the corner orientations by +1 (counter-clockwise) or -1 (clockwise) mod 3. |
| TurnLaws.TurnsAlongSum | main.py:117-130 | Stated on one slot array: a turn keeps the orientation sum mod 2 for edges and moves it by the step mod 3 for corners. |
| TurnLaws.TurnsDoNotCommute | main.py:1-18 | U then F puts the piece of edge slot 3 into slot 7, and F then U puts the piece of slot 0 there. So the two orders give different states whenever those two slots hold different pieces. |
| TurnLaws.DemoScenario | main.py:187-193 | Four counter-clockwise F turns of the solved state give back every edge. All corners are back in their slots, but corners 0, 3, 4 and 7 have orientation 1. So the demo does not end solved. |
| Visualize.IndexOf | main.py:152 | `.index` gives a value exactly when the letter occurs. That value is the first position holding the letter. |
| Visualize.ColorIndex | main.py:151-152 | Step 1 of `get_color` succeeds exactly when the slot is a key of the position table and borders the side. The index is then below 2 (edge) or 3 (corner). |
| Visualize.GetColor | main.py:137-154 | `get_color` succeeds exactly when the slot is a key, borders the side, and the piece id is a key of the colour table. The letter returned is one of that piece's colours. |
| Visualize.ColorIndexLocatesSide | main.py:151-152 | Taking the orientation back off the index that step 1 picks, mod 2 or 3, gives the first place of the side's letter among the slot's face letters. |
| Visualize.GetColorUntwisted | main.py:151-154 | An untwisted piece shows on a side the colour listed at the place of that side's letter among the slot's face letters. |
| Visualize.GetColorNext | main.py:151-154 | Raising the orientation by one shows the next colour of the piece's tuple, wrapping from the last back to the first. |
| Visualize.GetColorPeriodic | main.py:152-154 | The colour depends on the orientation only mod 2 (edge) or 3 (corner). |
| Visualize.GetColorSeparatesOrientations | main.py:152-154 | Two different in-range orientations of one piece in one slot show different colours on a side. |
| Visualize.TablesShaped | main.py:19-70 | Both colour tables and both position tables have one entry per slot, and each entry has one letter per orientation. |
| Visualize.SolvedEdgesShowFaces | main.py:19-48 | An untwisted edge in its own slot shows each bordering side's own colour. |
| Visualize.SolvedCornersShowFaces | main.py:49-70 | With corner 4 corrected, an untwisted corner in its own slot shows each bordering side's own colour. |
| Visualize.SolvedCornersAsWritten | main.py:54 | With the table as written, an untwisted corner in its own slot shows its side's colour except corner 4. Corner 4 shows red on F and green on R. |
| Visualize.CellIndexBijection | main.py:163-164 | `i*3+j - (0 if i*3+j < 4 else 1)` maps the eight outer cells one-to-one onto entries 0..7. The centre reads entry 3, as row 1 column 0 does. |
| Visualize.PieceOrderSlots | main.py:80-87 | Each side draws eight pieces. Entries 1, 3, 4 and 6 are edges and the rest corners, and each names a slot that the side's turn cycles. |
| Visualize.CyclesDrawn | main.py:80-87 | Every slot a side's turn cycles is drawn on that side. |
| Visualize.Cell | main.py:161-167 | The centre cell is the side's colour. Any other cell fails exactly when the id of the piece drawn there is not a key of its colour table. |
| Visualize.GetLines | main.py:155-169 | Drawing a side succeeds exactly when every piece drawn on it has an id that is a key of its colour table. The result is then three rows of three letters, with the side's own colour in the centre. |
| Visualize.GetLinesCell | main.py:155-169 | A side whose drawn piece ids are all keys of their colour tables is drawn, and the letter at every outer row i, column j is `get_color` of the piece drawn there, with its id and orientation. |
| Visualize.LinesOfCells | main.py:160-169 | The rows are built exactly when every cell is. They are then three strings of three letters with cell `3*i+j` at row i, column j. |
| Visualize.WellFormedDrawable | main.py:155-169 | Every side of a well-formed state can be drawn. |
| Visualize.SolvedCell | main.py:49-70 | Each cell of the solved state shows the side's colour with the corrected table. With the table as written, F row 2 column 2 is 'R' and R row 2 column 0 is 'G'; every other cell is the side's colour. |
| Visualize.SolvedFacesUniform | main.py:155-169 | With corner 4 corrected, every side of the solved state is drawn in its own colour. |
| Visualize.SolvedFacesAsWritten | main.py:54 | With the table as written, the solved F side is drawn `GGG/GGG/GGR` and R is drawn `RRR/RRR/GRR`. Every other side is uniform. |

## Left out

- The console output of `visualize` (main.py:170-184). It only prints the six grids in a cross.
- The demo at main.py:187-193 is not a program here. It is the scenario `TurnLaws.DemoScenario`.
- In-place mutation and list aliasing. `rotate` mutates the lists passed to `Cube()`, while the model returns a new state. The two agree on the resulting state when no two slots share one inner list. With `[[0,0]]*12`, for example, one `rotate` changes the shared list several times, and the model does not cover that.
- CubeState.Rotate: requires lists long enough for the side's cycles (`CanTurn`). With lists too short for the side's cycles Python raises `IndexError`, and that failure is not modelled.
- Visualize.GetLines: requires full lists of 12 edges and 8 corners. `visualize` draws all six sides, and together they read every slot.
- Type errors. Non-integer ids or orientations, or a side that is not a key of `edge_rots`, are ruled out by the types (`Side` is 0..5).
- `rotate` applies a flat toggle / +1 / -1 orientation rule (main.py:111-112), so four identical turns are not the identity. `FourTurnsNeverIdentity` and `DemoScenario` prove it.
- A corrected orientation rule and any solving logic. The file has none.

## Findings

| source | as written | input that shows it | evidently intended | confidence | as-written member | corrected member |
|---|---|---|---|---|---|---|
| main.py:54 | corner 4 has colours `("Y","R","G")`, but its slot 4 has faces `("D","F","R")` | drawing the solved state `Cube()`: the F side shows `R` at row 2 column 2, and the R side shows `G` at row 2 column 0 | `("Y","G","R")`, so that the solved cube draws every side in one colour; writing slot 4's faces as `("D","R","F")` at main.py:65 would fix the drawing equally | high; not executed | Visualize.SolvedFacesAsWritten | Visualize.SolvedFacesUniform |
