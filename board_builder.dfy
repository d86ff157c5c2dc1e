/** `BoardBuilder` of board_builder.rb: the conversion of a decoded floor
    into the solver's board: terrain codes to terrain cells, direction
    indices to vectors, records to characters, items and traps, and the
    protagonist and the stairs placed from the floor's header. */
module BoardBuilder {
  import opened Results
  import opened Geometry
  import opened Items
  import opened Characters
  import opened Traps
  import opened Boards
  import Fei

  // ------------------------------------------------------------- terrain

  /** `CHIKEI_CELL[n]`: floor, wall, indestructible wall, pillar, channel
      and wet floor become floor, wall, wall, rock, water and floor; a code
      outside the table is nil. */
  function ChikeiCell(n: nat): Cell
  {
    if n == 0 || n == 5 then Floor
    else if n == 1 || n == 2 then Wall
    else if n == 3 then Rock
    else if n == 4 then Water
    else Unmapped
  }

  /** `convert_chikei`: the same shape, each code converted. */
  function ConvertChikei(rows: seq<seq<nat>>): (r: seq<seq<Cell>>)
    ensures |r| == |rows| && forall y | 0 <= y < |r| :: |r[y]| == |rows[y]|
    ensures forall y, x | 0 <= y < |r| && 0 <= x < |r[y]| ::
      (rows[y][x] in {0, 5} <==> r[y][x] == Floor)
      && (rows[y][x] in {1, 2} <==> r[y][x] == Wall)
      && (rows[y][x] == 3 <==> r[y][x] == Rock)
      && (rows[y][x] == 4 <==> r[y][x] == Water)
      && (rows[y][x] > 5 <==> r[y][x] == Unmapped)
  {
    seq(|rows|, y requires 0 <= y < |rows| => seq(|rows[y]|, x requires 0 <= x < |rows[y]| => ChikeiCell(rows[y][x])))
  }

  // ---------------------------------------------------------- directions

  /** `DIR_TO_VEC[i]`: up, up-right, right, down-right, down, down-left,
      left, up-left. Past the table Ruby gets nil; the model reports it. */
  function DirToVec(i: int): (r: Result<Vec>)
    ensures 0 <= i < 8 ==> r == Ok(Compass[i])
    ensures i >= 8 ==> r == Err(UnmappedDirection)
    ensures r.Ok? ==> IsCompassDir(r.value)
  {
    match RubyIndex(|Compass|, i)
    case None => Err(UnmappedDirection)
    case Some(k) => CompassIsAllDirections(Compass[k]); Ok(Compass[k])
  }

  /** The eight indices name eight different directions, clockwise from
      up: two steps turn a quarter to the right. */
  lemma DirToVecIsClockwise(i: nat)
    requires i < 8
    ensures DirToVec(i).Ok? && DirToVec((i + 2) % 8).Ok?
    ensures forall j | 0 <= j < 8 && j != i :: DirToVec(j) != DirToVec(i)
    ensures DirToVec((i + 2) % 8).value == Vec(-DirToVec(i).value.y, DirToVec(i).value.x)
  {
    CompassIsDistinct();
    CompassQuarterTurn(i);
  }

  // ---------------------------------------------------------- characters

  /** `convert_character`: the name from the kind table (a missing kind or
      level indexes nil and raises), the position from the record's x and y,
      the facing from `DIR_TO_VEC`, then `Character.new`. */
  function ConvertCharacter(fc: Fei.Character): (r: Result<Character>)
    ensures r.Ok? ==> r.value.pos == Vec(fc.x, fc.y) && fc.dir < 8 && r.value.dir == Compass[fc.dir]
    ensures r.Ok? ==> Characters.New(r.value.name, r.value.pos, r.value.dir) == Ok(r.value)
  {
    if fc.kind !in Fei.CharacterKind then Err(NoMethodError)
    else
      var names := Fei.CharacterKind[fc.kind];
      match RubyIndex(|names|, fc.level - 1)
      case None => Err(NoMethodError)
      case Some(k) =>
        var pos := Vec(fc.x, fc.y);
        if Characters.New(names[k], pos, Vec(0, 0)).Err? then Err(ArgumentError)
        else
          match DirToVec(fc.dir)
          case Err(e) => Err(e)
          case Ok(d) => Characters.New(names[k], pos, d)
  }

  /** Of all the floor's characters only the first-level reflective one is
      a character the solver knows. */
  lemma ConvertCharacterAcceptsOnlyUshiwakamaru(fc: Fei.Character)
    ensures ConvertCharacter(fc).Ok? <==> fc.kind == 122 && fc.level == 1 && fc.dir < 8
    ensures ConvertCharacter(fc).Ok? ==> ConvertCharacter(fc).value.name == Ushiwakamaru
  {
    if fc.kind in Fei.CharacterKind {
      var names := Fei.CharacterKind[fc.kind];
      var k := RubyIndex(|names|, fc.level - 1);
      if k.Some? {
        Fei.KnownCharacterEntry(fc.kind, k.value);
      }
      if fc.kind == 122 {
        assert |names| == 3;
      }
    }
  }

  /** `convert_characters`: each record converted, in order; the first
      that raises makes the whole conversion raise. */
  function ConvertCharacters(fcs: seq<Fei.Character>): (r: Result<seq<Character>>)
    ensures r.Ok? <==> forall k | 0 <= k < |fcs| :: ConvertCharacter(fcs[k]).Ok?
    ensures r.Ok? ==> |r.value| == |fcs| && forall k | 0 <= k < |fcs| :: r.value[k] == ConvertCharacter(fcs[k]).value
  {
    if |fcs| == 0 then Ok([])
    else
      match ConvertCharacter(fcs[0])
      case Err(e) => Err(e)
      case Ok(c) =>
        match ConvertCharacters(fcs[1..])
        case Err(e) => Err(e)
        case Ok(cs) => Ok([c] + cs)
  }

  // --------------------------------------------------------------- items

  /** `convert_items`: each record becomes an item with its registered
      name, its count and its position; an unregistered kind has no name
      and raises. */
  function ConvertItems(fis: seq<Fei.Item>): (r: Result<seq<Item>>)
    ensures r.Ok? <==> forall k | 0 <= k < |fis| :: fis[k].kind in Fei.ItemKind
    ensures r.Err? ==> r.error == NoMethodError
    ensures r.Ok? ==> |r.value| == |fis| && forall k | 0 <= k < |fis| ::
      r.value[k] == Item(Fei.ItemKind[fis[k].kind], Some(fis[k].num), Some(Vec(fis[k].x, fis[k].y)))
  {
    if |fis| == 0 then Ok([])
    else if fis[0].kind !in Fei.ItemKind then Err(NoMethodError)
    else
      match ConvertItems(fis[1..])
      case Err(e) => Err(e)
      case Ok(its) =>
        Ok([Item(Fei.ItemKind[fis[0].kind], Some(fis[0].num), Some(Vec(fis[0].x, fis[0].y)))] + its)
  }

  // --------------------------------------------------------------- traps

  /** `convert_traps` for one record, as written: the name from `TRAP_KIND`
      goes to `Trap.new`, which accepts only its own spelling of the pit
      trap, one the table does not use. */
  function ConvertTrapAsWritten(ft: Fei.Trap): (r: Result<Trap>)
    ensures ft.kind !in Fei.TrapKind ==> r == Err(NoMethodError)
  {
    if ft.kind !in Fei.TrapKind then Err(NoMethodError)
    else Traps.New(Fei.TrapKind[ft.kind], Vec(ft.x, ft.y))
  }

  /** No trap record converts: every registered name is refused. */
  lemma ConvertTrapAsWrittenAlwaysRaises(ft: Fei.Trap)
    ensures ConvertTrapAsWritten(ft).Err?
    ensures ft.kind == 28 ==> ConvertTrapAsWritten(ft) == Err(UnknownTrap)
  {
    if ft.kind in Fei.TrapKind {
      assert Fei.TrapKind[ft.kind] != PitTrap;
    }
  }

  /** `convert_traps` for one record, as intended: the pit trap of the
      table (kind 28) becomes the solver's pit trap at the record's
      position; any other registered trap is refused by `Trap.new`. */
  function ConvertTrap(ft: Fei.Trap): (r: Result<Trap>)
    ensures r.Ok? <==> ft.kind == 28
    ensures r.Ok? ==> r.value == Trap(PitTrap, Vec(ft.x, ft.y))
    ensures ft.kind !in Fei.TrapKind ==> r == Err(NoMethodError)
  {
    if ft.kind !in Fei.TrapKind then Err(NoMethodError)
    else if ft.kind == 28 then Traps.New(PitTrap, Vec(ft.x, ft.y))
    else Traps.New(Fei.TrapKind[ft.kind], Vec(ft.x, ft.y))
  }

  /** `convert_traps`: each record converted, in order (as written or as
      intended); the first that raises makes the whole conversion raise. */
  function ConvertTraps(fts: seq<Fei.Trap>, asWritten: bool): (r: Result<seq<Trap>>)
    ensures r.Ok? <==> forall k | 0 <= k < |fts| ::
      (if asWritten then ConvertTrapAsWritten(fts[k]) else ConvertTrap(fts[k])).Ok?
    ensures r.Ok? ==> |r.value| == |fts| && forall k | 0 <= k < |fts| ::
      r.value[k] == (if asWritten then ConvertTrapAsWritten(fts[k]) else ConvertTrap(fts[k])).value
  {
    if |fts| == 0 then Ok([])
    else
      match (if asWritten then ConvertTrapAsWritten(fts[0]) else ConvertTrap(fts[0]))
      case Err(e) => Err(e)
      case Ok(t) =>
        match ConvertTraps(fts[1..], asWritten)
        case Err(e) => Err(e)
        case Ok(ts) => Ok([t] + ts)
  }

  // --------------------------------------------------------------- board

  /** The terrain shape every decoded floor has. */
  predicate FloorShaped(fl: Fei.Floor)
  {
    |fl.chikei| == 42 && forall y | 0 <= y < 42 :: |fl.chikei[y]| == 66
  }

  /** `convert` as written: right after the terrain is converted,
      `Board.map = chikei` calls a class-level writer that `Board` does not
      define (`map` is an instance reader), so every floor raises
      NoMethodError before any record is converted. Were that line gone,
      the five-argument `Board.new` (the constructor takes six) would raise
      ArgumentError next. */
  function ConvertAsWritten(fl: Fei.Floor): (r: Result<(Grid, BoardState)>)
    ensures r.Err? && r.error == NoMethodError
  {
    Err(NoMethodError)
  }

  /** `convert` with the board assembled as intended (the terrain handed to
      the board, all six constructor arguments): the terrain becomes the
      board's map; the floor's characters, then the protagonist at
      (asuka_x, asuka_y) facing up, are the characters; the inventory
      starts empty; the floor's items and traps are converted one for one,
      the traps as written or as intended; the stairs go to
      (stairs_x, stairs_y). */
  function ConvertWith(fl: Fei.Floor, trapsAsWritten: bool): (r: Result<(Grid, BoardState)>)
    requires FloorShaped(fl)
    ensures r.Ok? ==> |r.value.0| == 42 && Width(r.value.0) == 66
    ensures r.Ok? ==> var s := r.value.1;
      s.inventory == [] && |s.items| == |fl.items| && |s.traps| == |fl.traps|
      && |s.characters| == |fl.characters| + 1
      && s.characters[|fl.characters|] == Character(Asuka, Vec(fl.asukaX, fl.asukaY), Vec(0, -1), 15)
      && s.kaidan == Kaidan(Vec(fl.stairsX, fl.stairsY))
    ensures r.Ok? <==>
      (ConvertCharacters(fl.characters).Ok? && ConvertItems(fl.items).Ok? && ConvertTraps(fl.traps, trapsAsWritten).Ok?)
  {
    var chikei := ConvertChikei(fl.chikei);
    assert IsRectangular(chikei);
    var grid: Grid := chikei;
    match ConvertCharacters(fl.characters)
    case Err(e) => Err(e)
    case Ok(mob) =>
      var asuka := Characters.New(Asuka, Vec(fl.asukaX, fl.asukaY), Vec(0, -1)).value;
      match ConvertItems(fl.items)
      case Err(e) => Err(e)
      case Ok(items) =>
        match ConvertTraps(fl.traps, trapsAsWritten)
        case Err(e) => Err(e)
        case Ok(traps) =>
          Ok((grid, BoardState([], items, mob + [asuka], Kaidan(Vec(fl.stairsX, fl.stairsY)), traps)))
  }

  /** `convert` as intended. */
  function Convert(fl: Fei.Floor): (r: Result<(Grid, BoardState)>)
    requires FloorShaped(fl)
    ensures r == ConvertWith(fl, false)
    ensures r.Ok? ==> forall k | 0 <= k < |fl.traps| :: fl.traps[k].kind == 28
  {
    ConvertWith(fl, false)
  }

  /** Even with the board assembled as intended, the trap conversion as
      written refuses every floor that has a trap. */
  lemma TrapsAsWrittenRejectTrappedFloors(fl: Fei.Floor)
    requires FloorShaped(fl) && |fl.traps| > 0
    ensures ConvertWith(fl, true).Err?
  {
    ConvertTrapAsWrittenAlwaysRaises(fl.traps[0]);
  }

  /** As written no floor converts, while as intended every floor whose
      records all convert does. */
  lemma ConvertAsWrittenNeverConverts(fl: Fei.Floor)
    requires FloorShaped(fl)
    ensures ConvertAsWritten(fl).Err?
    ensures ConvertCharacters(fl.characters).Ok? && ConvertItems(fl.items).Ok?
      && (forall k | 0 <= k < |fl.traps| :: fl.traps[k].kind == 28)
      ==> Convert(fl).Ok? && ConvertAsWritten(fl) != Convert(fl)
  {
    if ConvertCharacters(fl.characters).Ok? && ConvertItems(fl.items).Ok?
      && (forall k | 0 <= k < |fl.traps| :: fl.traps[k].kind == 28)
    {
      ConvertKeepsPits(fl);
    }
  }

  /** As intended, a floor whose traps are all pits converts whenever its
      characters and items do, with the pits where the records put them. */
  lemma ConvertKeepsPits(fl: Fei.Floor)
    requires FloorShaped(fl)
    requires ConvertCharacters(fl.characters).Ok? && ConvertItems(fl.items).Ok?
    requires forall k | 0 <= k < |fl.traps| :: fl.traps[k].kind == 28
    ensures Convert(fl).Ok?
    ensures forall k | 0 <= k < |fl.traps| ::
      Convert(fl).value.1.traps[k] == Trap(PitTrap, Vec(fl.traps[k].x, fl.traps[k].y))
  {
  }
}
