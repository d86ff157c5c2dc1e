/** The grid and vector helpers of main.rb: the `Map` module (bounds-checked
    cell access), the `Vec` module (component-wise arithmetic), `positions`
    and the 25-offset order in which a dropped item looks for a free cell. */
module Geometry {
  import opened Results

  /** A coordinate or a direction `[x, y]`; the origin is the top-left cell
      and y grows downward. */
  datatype Vec = Vec(x: int, y: int)

  /** `Vec::plus`. */
  function Plus(a: Vec, b: Vec): Vec
  {
    Vec(a.x + b.x, a.y + b.y)
  }

  /** `Vec::opposite_of`: the reversed direction. */
  function OppositeOf(v: Vec): Vec
  {
    Vec(-v.x, -v.y)
  }

  /** Reversing twice gives the direction back, and stepping forth and back
      returns to the start. */
  lemma OppositeIsInvolution(v: Vec, p: Vec)
    ensures OppositeOf(OppositeOf(v)) == v
    ensures Plus(Plus(p, v), OppositeOf(v)) == p
  {
  }

  /** The eight facings, clockwise from up (`y` grows downwards), in the order
      the floor files number them. */
  const Compass: seq<Vec> :=
    [Vec(0, -1), Vec(1, -1), Vec(1, 0), Vec(1, 1), Vec(0, 1), Vec(-1, 1), Vec(-1, 0), Vec(-1, -1)]

  predicate IsCompassDir(d: Vec)
  {
    -1 <= d.x <= 1 && -1 <= d.y <= 1 && d != Vec(0, 0)
  }

  /** The compass holds exactly the eight directions. */
  lemma CompassIsAllDirections(d: Vec)
    ensures d in Compass <==> IsCompassDir(d)
  {
    if IsCompassDir(d) {
      if d.x == -1 {
        assert d == Compass[5] || d == Compass[6] || d == Compass[7];
      } else if d.x == 0 {
        assert d == Compass[0] || d == Compass[4];
      } else {
        assert d == Compass[1] || d == Compass[2] || d == Compass[3];
      }
    }
  }

  /** No direction appears twice in the compass. */
  lemma CompassIsDistinct()
    ensures forall i, j | 0 <= i < j < |Compass| :: Compass[i] != Compass[j]
  {
  }

  /** Two steps along the compass turn a facing a quarter clockwise. */
  lemma CompassQuarterTurn(i: nat)
    requires i < 8
    ensures Compass[(i + 2) % 8] == Vec(-Compass[i].y, Compass[i].x)
  {
  }

  /** The terrain symbols the solver knows: '　' floor, '■' wall, '◆'
      unbreakable wall, '水' water, and the nil a missing terrain code leaves. */
  datatype Cell = Floor | Wall | Rock | Water | Unmapped

  /** `['■', '◆'].include?(cell)`: the cells that stop projectiles and items. */
  predicate IsWallOrRock(c: Cell)
  {
    c == Wall || c == Rock
  }

  ghost predicate IsRectangular<T>(g: seq<seq<T>>)
  {
    |g| > 0 && forall y | 0 <= y < |g| :: |g[y]| == |g[0]|
  }

  /** The terrain: rows of cells, indexed `grid[y][x]`, all rows as wide as
      the first (the width `within_bounds?` uses). */
  type Grid = g: seq<seq<Cell>> | IsRectangular(g) witness [[Floor]]

  function Width(g: Grid): nat
  {
    |g[0]|
  }

  function Height(g: Grid): nat
  {
    |g|
  }

  /** `Map::within_bounds?`. */
  predicate WithinBounds(g: Grid, p: Vec)
  {
    0 <= p.x < Width(g) && 0 <= p.y < Height(g)
  }

  /** `Map::at`: the cell at `p`, or RangeError outside the grid. */
  function At(g: Grid, p: Vec): (r: Result<Cell>)
    ensures r.Ok? <==> WithinBounds(g, p)
    ensures r.Err? ==> r.error == RangeError
    ensures r.Ok? ==> r.value == g[p.y][p.x]
  {
    if WithinBounds(g, p) then Ok(g[p.y][p.x]) else Err(RangeError)
  }

  /** `Map::set!`: the grid with one cell replaced, or RangeError outside.
      Every other cell, and the shape, stay as they were. */
  function SetCell(g: Grid, p: Vec, v: Cell): (r: Result<Grid>)
    ensures r.Ok? <==> WithinBounds(g, p)
    ensures r.Ok? ==> Width(r.value) == Width(g) && Height(r.value) == Height(g)
    ensures r.Ok? ==> At(r.value, p) == Ok(v)
    ensures r.Ok? ==> forall q :: q != p ==> At(r.value, q) == At(g, q)
  {
    if WithinBounds(g, p) then
      var row := g[p.y][p.x := v];
      var g' := g[p.y := row];
      assert |g'[0]| == |g[0]|;
      assert IsRectangular(g');
      Ok(g')
    else Err(RangeError)
  }

  /** Row-major order of coordinates. */
  predicate Before(a: Vec, b: Vec)
  {
    a.y < b.y || (a.y == b.y && a.x < b.x)
  }

  /** The hits of `c` in `row[x0..]` on line `y`, left to right. */
  function RowPositions<T(==)>(c: T, row: seq<T>, y: int, x0: nat): (r: seq<Vec>)
    ensures forall p :: p in r <==> p.y == y && x0 <= p.x < |row| && row[p.x] == c
    ensures forall i, j :: 0 <= i < j < |r| ==> r[i].x < r[j].x
    decreases |row| - x0
  {
    if x0 >= |row| then []
    else
      var rest := RowPositions(c, row, y, x0 + 1);
      if row[x0] == c then [Vec(x0, y)] + rest else rest
  }

  /** The hits of `c` in rows `y0..` of `g`, in row-major order. */
  function PositionsFrom<T(==)>(c: T, g: seq<seq<T>>, y0: nat): (r: seq<Vec>)
    ensures forall p :: p in r <==> y0 <= p.y < |g| && 0 <= p.x < |g[p.y]| && g[p.y][p.x] == c
    ensures forall i, j :: 0 <= i < j < |r| ==> Before(r[i], r[j])
    decreases |g| - y0
  {
    if y0 >= |g| then []
    else
      var here := RowPositions(c, g[y0], y0, 0);
      var rest := PositionsFrom(c, g, y0 + 1);
      assert forall p :: p in here ==> p.y == y0;
      assert forall p :: p in rest ==> p.y > y0;
      here + rest
  }

  /** `positions(char, map)`: every `[x, y]` whose cell equals `c`, in
      row-major order. */
  function Positions<T(==)>(c: T, g: seq<seq<T>>): (r: seq<Vec>)
    ensures forall p :: p in r <==> 0 <= p.y < |g| && 0 <= p.x < |g[p.y]| && g[p.y][p.x] == c
    ensures forall i, j :: 0 <= i < j < |r| ==> Before(r[i], r[j])
  {
    PositionsFrom(c, g, 0)
  }

  /** The layout `generate_item_drop_sequence` reads: the base-26 digit k
      marks the k-th cell an item tries, relative to the centre `[2, 2]`. */
  const ItemRakka: seq<seq<char>> := ["kighj", "d645c ", "b312a", "f978e ", "pnlmo"]

  /** `i.to_s(26)` for 1 <= i <= 25: a single base-26 digit. */
  function Base26Digit(i: nat): char
    requires 1 <= i <= 25
  {
    if i < 10 then ('0' as int + i) as char else ('a' as int + i - 10) as char
  }

  /** The value of a base-26 digit character. */
  function DigitValue(c: char): int
  {
    if c <= '9' then c as int - '0' as int else c as int - 'a' as int + 10
  }

  /** `generate_item_drop_sequence`: for k = 1..25, the first position of
      digit k in the layout, shifted by `[-2, -2]`. A digit missing from the
      layout would make `first` nil and `Vec::plus` raise. */
  function GenerateItemDropSequence(): (r: Result<seq<Vec>>)
  {
    DropOffsetsFrom(1, ItemRakka)
  }

  /** The offsets of digits k..25 of `layout`. */
  function DropOffsetsFrom(k: nat, layout: seq<seq<char>>): Result<seq<Vec>>
    requires 1 <= k <= 26
    decreases 26 - k
  {
    if k == 26 then Ok([])
    else
      var ps := Positions(Base26Digit(k), layout);
      if |ps| == 0 then Err(NoMethodError)
      else match DropOffsetsFrom(k + 1, layout)
        case Err(e) => Err(e)
        case Ok(rest) => Ok([Plus(ps[0], Vec(-2, -2))] + rest)
  }

  /** `Board::ITEM_DROP_SEQ`: the offsets a dropped item tries, in order. */
  const ItemDropSeq: seq<Vec> := [
    Vec(0, 0), Vec(1, 0), Vec(-1, 0), Vec(0, -1), Vec(1, -1), Vec(-1, -1),
    Vec(0, 1), Vec(1, 1), Vec(-1, 1), Vec(2, 0), Vec(-2, 0), Vec(2, -1),
    Vec(-2, -1), Vec(2, 1), Vec(-2, 1), Vec(0, -2), Vec(1, -2), Vec(-1, -2),
    Vec(2, -2), Vec(-2, -2), Vec(0, 2), Vec(1, 2), Vec(-1, 2), Vec(2, 2), Vec(-2, 2)]

  /** Every offset of the table marks its own digit in the layout ... */
  lemma TableCellsHoldTheirDigits()
    ensures forall k | 1 <= k <= 25 ::
      ItemRakka[ItemDropSeq[k - 1].y + 2][ItemDropSeq[k - 1].x + 2] == Base26Digit(k)
  {
  }

  /** ... and every non-blank layout cell is the cell of the table entry its
      digit names. */
  lemma LayoutCellsAreInTable()
    ensures forall y, x | 0 <= y < |ItemRakka| && 0 <= x < |ItemRakka[y]| && ItemRakka[y][x] != ' ' ::
      var k := DigitValue(ItemRakka[y][x]);
      1 <= k <= 25 && Base26Digit(k) == ItemRakka[y][x] && ItemDropSeq[k - 1] == Vec(x - 2, y - 2)
  {
  }

  lemma SortedHasNoRepeats(r: seq<Vec>, i: nat, j: nat)
    requires i < j < |r|
    requires forall i, j :: 0 <= i < j < |r| ==> Before(r[i], r[j])
    ensures r[i] != r[j]
  {
  }

  /** A strictly ordered sequence that holds `e` and nothing else is `[e]`. */
  lemma OnlyElement(r: seq<Vec>, e: Vec)
    requires e in r
    requires forall p :: p in r ==> p == e
    requires forall i, j :: 0 <= i < j < |r| ==> Before(r[i], r[j])
    ensures r == [e]
  {
    forall i | 0 <= i < |r| ensures r[i] == e {
      assert r[i] in r;
    }
    if |r| >= 2 {
      SortedHasNoRepeats(r, 0, 1);
      assert false;
    }
    assert r == [r[0]];
  }

  /** A layout cell holding digit k is the cell of the k-th offset. */
  lemma DigitCellIsTableCell(k: nat, p: Vec)
    requires 1 <= k <= 25
    requires 0 <= p.y < |ItemRakka| && 0 <= p.x < |ItemRakka[p.y]|
    requires ItemRakka[p.y][p.x] == Base26Digit(k)
    ensures p == Plus(ItemDropSeq[k - 1], Vec(2, 2))
  {
    LayoutCellsAreInTable();
    assert DigitValue(Base26Digit(k)) == k;
  }

  /** When `c` occurs in exactly one cell `e`, `positions` is `[e]`. */
  lemma UniquePosition<T>(c: T, g: seq<seq<T>>, e: Vec)
    requires 0 <= e.y < |g| && 0 <= e.x < |g[e.y]| && g[e.y][e.x] == c
    requires forall p: Vec | 0 <= p.y < |g| && 0 <= p.x < |g[p.y]| && g[p.y][p.x] == c :: p == e
    ensures Positions(c, g) == [e]
  {
    OnlyElement(Positions(c, g), e);
  }

  /** Digit k occurs exactly once in the layout, at the k-th table offset. */
  lemma DigitPositions(k: nat)
    requires 1 <= k <= 25
    ensures Positions(Base26Digit(k), ItemRakka) == [Plus(ItemDropSeq[k - 1], Vec(2, 2))]
  {
    var e := Plus(ItemDropSeq[k - 1], Vec(2, 2));
    TableCellsHoldTheirDigits();
    forall p: Vec | 0 <= p.y < |ItemRakka| && 0 <= p.x < |ItemRakka[p.y]| && ItemRakka[p.y][p.x] == Base26Digit(k)
      ensures p == e
    {
      DigitCellIsTableCell(k, p);
    }
    UniquePosition(Base26Digit(k), ItemRakka, e);
  }

  /** One step of `DropOffsetsFrom`: digit k found once at `e` puts
      `e - [2, 2]` before the offsets of the later digits. */
  lemma DropOffsetsStep(k: nat, layout: seq<seq<char>>, e: Vec, rest: seq<Vec>)
    requires 1 <= k <= 25
    requires Positions(Base26Digit(k), layout) == [Plus(e, Vec(2, 2))]
    requires DropOffsetsFrom(k + 1, layout) == Ok(rest)
    ensures DropOffsetsFrom(k, layout) == Ok([e] + rest)
  {
    assert Plus(Plus(e, Vec(2, 2)), Vec(-2, -2)) == e;
  }

  /** When each digit k occurs once, at the k-th table cell, the offsets
      of digits 1..25 are the table. */
  lemma DropOffsetsFromTable(layout: seq<seq<char>>, table: seq<Vec>)
    requires |table| == 25
    requires forall d | 1 <= d <= 25 :: Positions(Base26Digit(d), layout) == [Plus(table[d - 1], Vec(2, 2))]
    ensures DropOffsetsFrom(1, layout) == Ok(table)
  {
    var k := 26;
    assert table[25..] == [];
    while k > 1
      invariant 1 <= k <= 26
      invariant DropOffsetsFrom(k, layout) == Ok(table[k - 1..])
    {
      DropOffsetsStep(k - 1, layout, table[k - 2], table[k - 1..]);
      assert table[k - 2..] == [table[k - 2]] + table[k - 1..];
      k := k - 1;
    }
    assert table[0..] == table;
  }

  /** The layout yields exactly the table above. */
  lemma GeneratedSequenceIsTable()
    ensures GenerateItemDropSequence() == Ok(ItemDropSeq)
  {
    forall d | 1 <= d <= 25
      ensures Positions(Base26Digit(d), ItemRakka) == [Plus(ItemDropSeq[d - 1], Vec(2, 2))]
    {
      DigitPositions(d);
    }
    DropOffsetsFromTable(ItemRakka, ItemDropSeq);
  }

  /** The 25 offsets are pairwise distinct and the first is the origin. */
  lemma ItemDropSeqIsDistinct()
    ensures |ItemDropSeq| == 25 && ItemDropSeq[0] == Vec(0, 0)
    ensures forall i, j | 0 <= i < j < |ItemDropSeq| :: ItemDropSeq[i] != ItemDropSeq[j]
  {
  }

  /** Where each cell of the square sits in the table. */
  function SquareIndex(v: Vec): (i: nat)
    requires -2 <= v.x <= 2 && -2 <= v.y <= 2
    ensures i < |ItemDropSeq| && ItemDropSeq[i] == v
  {
    if v.y == -2 then (if v.x == -2 then 19 else if v.x == -1 then 17 else if v.x == 0 then 15 else if v.x == 1 then 16 else 18)
    else if v.y == -1 then (if v.x == -2 then 12 else if v.x == -1 then 5 else if v.x == 0 then 3 else if v.x == 1 then 4 else 11)
    else if v.y == 0 then (if v.x == -2 then 10 else if v.x == -1 then 2 else if v.x == 0 then 0 else if v.x == 1 then 1 else 9)
    else if v.y == 1 then (if v.x == -2 then 14 else if v.x == -1 then 8 else if v.x == 0 then 6 else if v.x == 1 then 7 else 13)
    else (if v.x == -2 then 24 else if v.x == -1 then 22 else if v.x == 0 then 20 else if v.x == 1 then 21 else 23)
  }

  /** The offsets are exactly the cells of the square [-2, 2] x [-2, 2]. */
  lemma ItemDropSeqInSquare()
    ensures forall i | 0 <= i < |ItemDropSeq| :: -2 <= ItemDropSeq[i].x <= 2 && -2 <= ItemDropSeq[i].y <= 2
  {
  }

  lemma ItemDropSeqCoversSquare()
    ensures forall v: Vec | -2 <= v.x <= 2 && -2 <= v.y <= 2 :: v in ItemDropSeq
  {
    forall v: Vec | -2 <= v.x <= 2 && -2 <= v.y <= 2 ensures v in ItemDropSeq {
      var i := SquareIndex(v);
      assert ItemDropSeq[i] == v;
    }
  }
}
