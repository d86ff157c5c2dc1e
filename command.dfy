/** The player's commands of command.rb: `Command.create`, and move, throw,
    drop, pick and use. Each command is a function from a board's value to
    the value it leaves (the meaning), and a method that changes a `Board`
    in place the way the source's `execute` does, proved to agree. */
module Commands {
  import opened Results
  import opened Geometry
  import opened Bags
  import opened Items
  import opened Characters
  import opened Traps
  import TrapHooks
  import opened Boards
  import opened Hooks
  import opened Trajectories
  import opened CharacterEffects
  import ItemEffects

  datatype Command =
    | Move(dir: Vec, pick: bool)
    | Throw(dir: Vec, item: Item)
    | Drop(item: Item)
    | Pick
    | Use(dir: Vec, item: Item)

  /** An argument of `Command.create`. */
  datatype Arg = DirArg(v: Vec) | BoolArg(b: bool) | ItemArg(it: Item)

  /** The type symbols `Command.create` knows. */
  const Kinds: seq<string> := ["move", "throw", "drop", "pick", "use"]

  function KindOf(c: Command): string
  {
    match c
    case Move(_, _) => "move"
    case Throw(_, _) => "throw"
    case Drop(_) => "drop"
    case Pick => "pick"
    case Use(_, _) => "use"
  }

  function ArgsOf(c: Command): seq<Arg>
  {
    match c
    case Move(d, p) => [DirArg(d), BoolArg(p)]
    case Throw(d, it) => [DirArg(d), ItemArg(it)]
    case Drop(it) => [ItemArg(it)]
    case Pick => []
    case Use(d, it) => [DirArg(d), ItemArg(it)]
  }

  /** `Command.create(type, *args)`: the command class for the type, built
      from the arguments; an unknown type, or arguments the constructor does
      not take, raise ArgumentError. */
  function Create(kind: string, args: seq<Arg>): (r: Result<Command>)
    ensures kind !in Kinds ==> r == Err(ArgumentError)
    ensures r.Err? ==> r.error == ArgumentError
    ensures r.Ok? ==> KindOf(r.value) == kind && ArgsOf(r.value) == args
  {
    if kind == "move" then
      if |args| == 2 && args[0].DirArg? && args[1].BoolArg? then Ok(Move(args[0].v, args[1].b)) else Err(ArgumentError)
    else if kind == "throw" then
      if |args| == 2 && args[0].DirArg? && args[1].ItemArg? then Ok(Throw(args[0].v, args[1].it)) else Err(ArgumentError)
    else if kind == "drop" then
      if |args| == 1 && args[0].ItemArg? then Ok(Drop(args[0].it)) else Err(ArgumentError)
    else if kind == "pick" then
      if |args| == 0 then Ok(Pick) else Err(ArgumentError)
    else if kind == "use" then
      if |args| == 2 && args[0].DirArg? && args[1].ItemArg? then Ok(Use(args[0].v, args[1].it)) else Err(ArgumentError)
    else Err(ArgumentError)
  }

  /** Every command can be made by `create` from its own type and arguments. */
  lemma CreateRoundTrip(c: Command)
    ensures Create(KindOf(c), ArgsOf(c)) == Ok(c)
  {
    match c
    case Move(d, p) =>
    case Throw(d, it) =>
    case Drop(it) =>
    case Pick =>
    case Use(d, it) =>
  }

  /** `DIRS`: the eight directions a command can face. */
  const Dirs: seq<Vec> := [Vec(-1, -1), Vec(-1, 0), Vec(-1, 1), Vec(0, -1), Vec(0, 1), Vec(1, -1), Vec(1, 0), Vec(1, 1)]

  /** `DIRS` holds each of the eight compass directions once. */
  lemma DirsAreTheCompass()
    ensures |Dirs| == 8
    ensures forall d :: d in Dirs <==> IsCompassDir(d)
    ensures forall i, j | 0 <= i < j < |Dirs| :: Dirs[i] != Dirs[j]
  {
    forall d ensures d in Dirs <==> IsCompassDir(d) {
      CompassIsAllDirections(d);
    }
  }

  // ---------------------------------------------------------------- move

  /** `board.map[y][x]`: a missing row is nil, and indexing nil raises; a
      missing column gives nil (None). */
  function MapCell(g: Grid, x: int, y: int): (r: Result<Option<Cell>>)
    ensures WithinBounds(g, Vec(x, y)) ==> r == Ok(Some(g[y][x]))
    ensures r.Err? <==> RubyIndex(Height(g), y).None?
    ensures r.Err? ==> r.error == NoMethodError
  {
    match RubyIndex(Height(g), y)
    case None => Err(NoMethodError)
    case Some(row) =>
      match RubyIndex(|g[row]|, x)
      case None => Ok(None)
      case Some(col) => Ok(Some(g[row][col]))
  }

  /** `['■', '◆', '水'].include?(cell)`. */
  predicate Impassable(c: Option<Cell>)
  {
    c == Some(Wall) || c == Some(Rock) || c == Some(Water)
  }

  /** A cell of the grid a character can step onto: nobody stands there and
      it is no wall, rock or water. */
  predicate Enterable(g: Grid, s: BoardState, p: Vec)
  {
    WithinBounds(g, p) && |CharactersAt(s.characters, p)| == 0
    && !IsWallOrRock(g[p.y][p.x]) && g[p.y][p.x] != Water
  }

  /** `can_move_into?`. The source asks whether the character collection
      includes the coordinate pair (which never holds); the occupancy by a
      character standing there, which it means, is tested here. */
  function CanMoveInto(g: Grid, s: BoardState, p: Vec): (r: Result<bool>)
    ensures WithinBounds(g, p) ==> r == Ok(Enterable(g, s, p))
  {
    if |CharactersAt(s.characters, p)| > 0 then Ok(false)
    else match MapCell(g, p.x, p.y)
      case Err(e) => Err(e)
      case Ok(c) => Ok(!Impassable(c))
  }

  /** A diagonal step from `from` along `dir` passes a '■' corner. */
  predicate CutsCorner(g: Grid, from: Vec, dir: Vec)
    requires WithinBounds(g, from) && WithinBounds(g, Plus(from, dir))
  {
    dir.x != 0 && dir.y != 0 && (g[from.y][from.x + dir.x] == Wall || g[from.y + dir.y][from.x] == Wall)
  }

  /** `asuka_can_move_into?`: the target can be entered and, on a diagonal
      step (`dx * dy != 0`), neither `[tx, sy]` nor `[sx, ty]` is '■'. */
  function AsukaCanMoveInto(g: Grid, s: BoardState, from: Vec, dir: Vec): (r: Result<bool>)
    ensures WithinBounds(g, from) && WithinBounds(g, Plus(from, dir)) ==>
      r == Ok(Enterable(g, s, Plus(from, dir)) && !CutsCorner(g, from, dir))
    ensures r == Ok(true) ==> WithinBounds(g, Plus(from, dir)) || RubyIndex(Height(g), from.y + dir.y).Some?
  {
    var p := Plus(from, dir);
    match CanMoveInto(g, s, p)
    case Err(e) => Err(e)
    case Ok(free) =>
      if !free then Ok(false)
      else if dir.x * dir.y != 0 then
        match MapCell(g, p.x, from.y)
        case Err(e) => Err(e)
        case Ok(side1) =>
          if side1 == Some(Wall) then Ok(false)
          else match MapCell(g, from.x, p.y)
            case Err(e) => Err(e)
            case Ok(side2) => Ok(side2 != Some(Wall))
      else Ok(true)
  }

  /** `CommandMove#execute`: if the protagonist may step along `dir` it does
      so and faces `dir`; with `pick` it then takes the floor item it stands
      on into the inventory, its position cleared. */
  function MoveResult(g: Grid, s: BoardState, dir: Vec, pick: bool): (r: Result<BoardState>)
    ensures AsukaIndex(s.characters).None? ==> r == Err(NoProtagonist)
  {
    match AsukaIndex(s.characters)
    case None => Err(NoProtagonist)
    case Some(ai) =>
      var a := s.characters[ai];
      var t := Plus(a.pos, dir);
      match AsukaCanMoveInto(g, s, a.pos, dir)
      case Err(e) => Err(e)
      case Ok(can) =>
        if !can then Ok(s)
        else
          var moved := s.(characters := s.characters[ai := a.(pos := t, dir := dir)]);
          match ItemAt(s, t)
          case Some(it) =>
            if pick then Ok(moved.(items := DeleteFirst(s.items, it), inventory := s.inventory + [it.(pos := None)]))
            else Ok(moved)
          case None => Ok(moved)
  }

  /** A refused move changes nothing. */
  lemma IllegalMoveChangesNothing(g: Grid, s: BoardState, dir: Vec, pick: bool, ai: nat)
    requires AsukaIndex(s.characters) == Some(ai)
    requires AsukaCanMoveInto(g, s, s.characters[ai].pos, dir) == Ok(false)
    ensures MoveResult(g, s, dir, pick) == Ok(s)
  {
  }

  /** A legal move puts the protagonist one step along `dir`, facing `dir`,
      and leaves every other character, the stairs and the traps alone. A
      move without `pick`, or onto a cell with no floor item, leaves the
      items and the inventory alone; a picking move onto an item takes one
      occurrence of it off the floor and appends it, without position, to
      the inventory. */
  lemma LegalMove(g: Grid, s: BoardState, dir: Vec, pick: bool, ai: nat)
    requires AsukaIndex(s.characters) == Some(ai)
    requires AsukaCanMoveInto(g, s, s.characters[ai].pos, dir) == Ok(true)
    ensures MoveResult(g, s, dir, pick).Ok?
    ensures MoveResult(g, s, dir, pick).value.characters
      == s.characters[ai := s.characters[ai].(pos := Plus(s.characters[ai].pos, dir), dir := dir)]
    ensures AsukaOf(MoveResult(g, s, dir, pick).value)
      == Ok(s.characters[ai].(pos := Plus(s.characters[ai].pos, dir), dir := dir))
    ensures MoveResult(g, s, dir, pick).value.kaidan == s.kaidan
    ensures MoveResult(g, s, dir, pick).value.traps == s.traps
    ensures !pick || ItemAt(s, Plus(s.characters[ai].pos, dir)).None? ==>
      MoveResult(g, s, dir, pick).value.items == s.items && MoveResult(g, s, dir, pick).value.inventory == s.inventory
    ensures pick && ItemAt(s, Plus(s.characters[ai].pos, dir)).Some? ==>
      var it := ItemAt(s, Plus(s.characters[ai].pos, dir)).value;
      multiset(MoveResult(g, s, dir, pick).value.items) == multiset(s.items) - multiset{it}
      && MoveResult(g, s, dir, pick).value.inventory == s.inventory + [it.(pos := None)]
  {
    var a := s.characters[ai];
    AsukaIndexAfterUpdate(s.characters, ai, a.(pos := Plus(a.pos, dir), dir := dir));
  }

  /** `CommandMove#execute` in place. */
  method ExecuteMove(b: Board, dir: Vec, pick: bool) returns (st: Status)
    modifies b
    ensures st == Done <==> MoveResult(b.grid, old(b.State()), dir, pick).Ok?
    ensures st == Done ==> b.State() == MoveResult(b.grid, old(b.State()), dir, pick).value
  {
    ghost var s := b.State();
    var ai := AsukaIndex(b.characters);
    if ai.None? {
      return Failed(NoProtagonist);
    }
    var a := b.characters[ai.value];
    var can := AsukaCanMoveInto(b.grid, b.State(), a.pos, dir);
    if can.Err? {
      return Failed(can.error);
    }
    if !can.value {
      return Done;
    }
    var t := Plus(a.pos, dir);
    b.characters := b.characters[ai.value := a.(pos := t)];
    b.characters := b.characters[ai.value := b.characters[ai.value].(dir := dir)];
    ghost var moved := s.(characters := s.characters[ai.value := a.(pos := t, dir := dir)]);
    assert b.State() == moved;
    var item := ItemIndexAt(b.items, t);
    assert item.Some? <==> ItemAt(s, t).Some?;
    if pick && item.Some? {
      var it := b.items[item.value];
      assert ItemAt(s, t) == Some(it);
      b.items := DeleteFirst(b.items, it);
      b.inventory := b.inventory + [it.(pos := None)];
      assert b.State() == moved.(items := DeleteFirst(s.items, it), inventory := s.inventory + [it.(pos := None)]);
    }
    return Done;
  }

  // --------------------------------------------------------------- throw

  /** A measure of how far a straight flight along `dir` (not zero) can go
      before it leaves the grid. */
  function Remaining(g: Grid, p: Vec, dir: Vec): nat
  {
    if dir.x > 0 then (if p.x < Width(g) then Width(g) - p.x else 0)
    else if dir.x < 0 then (if p.x >= 0 then p.x + 1 else 0)
    else if dir.y > 0 then (if p.y < Height(g) then Height(g) - p.y else 0)
    else if p.y >= 0 then p.y + 1 else 0
  }

  /** `max_trajectory` for a direction other than zero: `p`, then each next
      cell while it is inside the grid and no wall or rock. */
  function ThrowPathFrom(g: Grid, p: Vec, dir: Vec): (r: seq<Vec>)
    requires dir != Vec(0, 0)
    ensures |r| > 0 && r[0] == p
    ensures forall i | 0 <= i < |r| - 1 :: r[i + 1] == Plus(r[i], dir)
    ensures forall i | 1 <= i < |r| :: WithinBounds(g, r[i]) && !IsWall(g, r[i])
    ensures !WithinBounds(g, Plus(r[|r| - 1], dir)) || IsWall(g, Plus(r[|r| - 1], dir))
    decreases Remaining(g, p, dir)
  {
    var next := Plus(p, dir);
    if !WithinBounds(g, next) || IsWall(g, next) then [p]
    else [p] + ThrowPathFrom(g, next, dir)
  }

  /** `max_trajectory` from `start`. Along the zero direction the source
      loops forever unless the start is outside the grid or a wall. */
  function ThrowPath(g: Grid, start: Vec, dir: Vec): (r: Result<seq<Vec>>)
    ensures r.Err? <==> dir == Vec(0, 0) && WithinBounds(g, start) && !IsWall(g, start)
    ensures r.Err? ==> r.error == Diverges
    ensures r.Ok? ==> |r.value| > 0 && r.value[0] == start
    ensures r.Ok? ==> forall i | 0 <= i < |r.value| - 1 :: r.value[i + 1] == Plus(r.value[i], dir)
    ensures r.Ok? ==> forall i | 1 <= i < |r.value| :: WithinBounds(g, r.value[i]) && !IsWall(g, r.value[i])
  {
    if dir == Vec(0, 0) then
      if WithinBounds(g, start) && !IsWall(g, start) then Err(Diverges) else Ok([start])
    else Ok(ThrowPathFrom(g, start, dir))
  }

  /** One cell of the flight: it ends at `p` when the next cell is outside
      the grid or a wall, and goes on from the next cell otherwise, which is
      nearer the edge. */
  lemma ThrowPathStep(g: Grid, p: Vec, dir: Vec)
    requires dir != Vec(0, 0)
    ensures var next := Plus(p, dir);
      if !WithinBounds(g, next) || IsWall(g, next) then ThrowPathFrom(g, p, dir) == [p]
      else ThrowPathFrom(g, p, dir) == [p] + ThrowPathFrom(g, next, dir) && Remaining(g, next, dir) < Remaining(g, p, dir)
  {
  }

  /** The loop of `max_trajectory`. */
  method ThrowTrajectory(g: Grid, start: Vec, dir: Vec) returns (r: Result<seq<Vec>>)
    ensures r == ThrowPath(g, start, dir)
  {
    if dir == Vec(0, 0) {
      if WithinBounds(g, start) && !IsWall(g, start) {
        return Err(Diverges);
      }
      return Ok([start]);
    }
    var traj: seq<Vec> := [];
    var pos := start;
    while true
      invariant traj + ThrowPathFrom(g, pos, dir) == ThrowPathFrom(g, start, dir)
      decreases Remaining(g, pos, dir)
    {
      ThrowPathStep(g, pos, dir);
      ghost var before := traj;
      traj := traj + [pos];
      var next := Plus(pos, dir);
      if !WithinBounds(g, next) || IsWall(g, next) {
        return Ok(traj);
      }
      assert before + ([pos] + ThrowPathFrom(g, next, dir)) == traj + ThrowPathFrom(g, next, dir);
      pos := next;
    }
  }

  /** The first index from `k` on whose cell holds a character. */
  function FirstHit(s: BoardState, path: seq<Vec>, k: nat): (r: Option<nat>)
    requires k <= |path|
    ensures r.Some? ==> k <= r.value < |path| && |CharactersAt(s.characters, path[r.value])| > 0
    ensures r.Some? ==> forall i | k <= i < r.value :: |CharactersAt(s.characters, path[i])| == 0
    ensures r.None? ==> forall i | k <= i < |path| :: |CharactersAt(s.characters, path[i])| == 0
    decreases |path| - k
  {
    if k == |path| then None
    else if |CharactersAt(s.characters, path[k])| > 0 then Some(k)
    else FirstHit(s, path, k + 1)
  }

  /** The start of `execute`/`execute_normal_throw`: the protagonist (at
      index `ai`) faces `dir`, the thrown item is looked up in the inventory,
      then on the floor, and leaves the board. An item found in neither
      makes `destroy_item!` raise on nil. */
  function Thrown(s: BoardState, dir: Vec, item: Item): (r: Result<(nat, Item, BoardState)>)
    ensures AsukaIndex(s.characters).None? ==> r == Err(NoProtagonist)
    ensures r.Err? ==> r.error in {NoProtagonist, NoMethodError}
    ensures r.Ok? ==> r.value.1 == item && AsukaIndex(s.characters) == Some(r.value.0)
    ensures r.Ok? ==> (r.value.0 < |r.value.2.characters|
      && r.value.2.characters == s.characters[r.value.0 := s.characters[r.value.0].(dir := dir)])
    ensures r.Ok? ==> r.value.2.kaidan == s.kaidan && r.value.2.traps == s.traps
    ensures r.Ok? ==> (item in s.inventory || item in s.items)
    ensures r.Ok? && item.pos.None? ==> (r.value.2.items == s.items
      && multiset(r.value.2.inventory) == multiset(s.inventory) - multiset{item})
    ensures r.Ok? && item.pos.Some? ==> (r.value.2.inventory == s.inventory
      && multiset(r.value.2.items) == multiset(s.items) - multiset{item})
    ensures AsukaIndex(s.characters).Some? && (item in s.inventory || item in s.items) ==> r.Ok?
  {
    match AsukaIndex(s.characters)
    case None => Err(NoProtagonist)
    case Some(ai) =>
      var s1 := s.(characters := s.characters[ai := s.characters[ai].(dir := dir)]);
      var found := match FindEql(s1.inventory, item)
        case Some(it) => Some(it)
        case None => FindEql(s1.items, item);
      match found
      case None => Err(NoMethodError)
      case Some(it) => Ok((ai, it, AfterDestroyItem(s1, it)))
  }

  /** `item_land` as intended: a trap on the landing cell swallows the item
      (`Trap#land`); otherwise the item is put back on the floor where
      `item_drop` says, or vanishes when `item_drop` finds no place. */
  function ItemLand(g: Grid, s: BoardState, it: Item, cand: Vec): (r: Result<BoardState>)
    ensures TrapAt(s, cand).Some? ==> r == Ok(TrapHooks.Land(s, TrapAt(s, cand).value))
    ensures TrapAt(s, cand).None? && ItemDropTarget(g, s, cand).Ok? && ItemDropTarget(g, s, cand).value.Some? ==>
      r == Ok(s.(items := s.items + [it.(pos := ItemDropTarget(g, s, cand).value)]))
    ensures TrapAt(s, cand).None? && ItemDropTarget(g, s, cand) == Ok(None) ==> r == Ok(s)
    ensures r.Err? ==> r.error == RangeError
  {
    match TrapAt(s, cand)
    case Some(trap) => Ok(TrapHooks.Land(s, trap))
    case None =>
      match ItemDropTarget(g, s, cand)
      case Err(e) => Err(e)
      case Ok(None) => Ok(s)
      case Ok(Some(q)) => Ok(s.(items := s.items + [it.(pos := Some(q))]))
  }

  /** `item_land` as written: the landed item gets its position but is never
      put back into `board.items`, so it is lost. */
  function ItemLandAsWritten(g: Grid, s: BoardState, it: Item, cand: Vec): (r: Result<BoardState>)
    ensures TrapAt(s, cand).Some? ==> r == ItemLand(g, s, it, cand)
    ensures r.Ok? && TrapAt(s, cand).None? ==> r.value == s
  {
    match TrapAt(s, cand)
    case Some(trap) => Ok(TrapHooks.Land(s, trap))
    case None =>
      match ItemDropTarget(g, s, cand)
      case Err(e) => Err(e)
      case Ok(_) => Ok(s)
  }

  /** What happens once the flight's last cell is known and nobody was hit:
      an item that moved lands; one that stayed where it lay on the floor
      stays there (as intended) or is gone (as written). */
  function Landing(g: Grid, s: BoardState, it: Item, cand: Vec, asWritten: bool): (r: Result<BoardState>)
  {
    if it.pos != Some(cand) then
      if asWritten then ItemLandAsWritten(g, s, it, cand) else ItemLand(g, s, it, cand)
    else if asWritten then Ok(s)
    else Ok(s.(items := s.items + [it]))
  }

  /** The flight of `execute_normal_throw` after the item left the board:
      from the protagonist's cell (it is at index `ai`) along `dir`, the
      first character on the path after the start is hit
      (`hit_by_projectile`) and that ends the throw; otherwise the item lands
      on the last cell. */
  function ThrowFlight(g: Grid, s: BoardState, hk: Hooks, dir: Vec, ai: nat, it: Item, asWritten: bool): (r: Result<BoardState>)
    requires ai < |s.characters|
  {
    var a := s.characters[ai];
    match ThrowPath(g, a.pos, dir)
    case Err(e) => Err(e)
    case Ok(path) =>
      match FirstHit(s, path, 1)
      case Some(i) =>
        var ci := CharacterIndexAt(s.characters, path[i]).value;
        HitByProjectile(g, s, hk, ci, it, dir, a)
      case None => Landing(g, s, it, path[|path| - 1], asWritten)
  }

  /** `CommandThrow#execute`: face `dir`, take the item off the board, fly it. */
  function ThrowWith(g: Grid, s: BoardState, hk: Hooks, dir: Vec, item: Item, asWritten: bool): (r: Result<BoardState>)
  {
    match Thrown(s, dir, item)
    case Err(e) => Err(e)
    case Ok(t) => ThrowFlight(g, t.2, hk, dir, t.0, t.1, asWritten)
  }

  /** The throw as intended: the item that lands is back on the floor. */
  function ThrowResult(g: Grid, s: BoardState, hk: Hooks, dir: Vec, item: Item): (r: Result<BoardState>)
    ensures AsukaIndex(s.characters).None? ==> r == Err(NoProtagonist)
  {
    ThrowWith(g, s, hk, dir, item, false)
  }

  /** The throw as written, where `item_land` forgets the item. */
  function ThrowAsWritten(g: Grid, s: BoardState, hk: Hooks, dir: Vec, item: Item): (r: Result<BoardState>)
    ensures AsukaIndex(s.characters).None? ==> r == Err(NoProtagonist)
  {
    ThrowWith(g, s, hk, dir, item, true)
  }

  /** A throw that hits nobody and finds no trap where it ends: as written
      the item is gone from both collections; as intended it lies on the
      floor again, where `item_drop` put it. */
  lemma {:induction false} ThrownItemLands(g: Grid, s: BoardState, hk: Hooks, dir: Vec, item: Item, cand: Vec, q: Vec)
    requires Thrown(s, dir, item).Ok?
    requires item.pos.None?
    requires var t := Thrown(s, dir, item).value;
      ThrowPath(g, t.2.characters[t.0].pos, dir).Ok?
      && FirstHit(t.2, ThrowPath(g, t.2.characters[t.0].pos, dir).value, 1).None?
      && cand == ThrowPath(g, t.2.characters[t.0].pos, dir).value[|ThrowPath(g, t.2.characters[t.0].pos, dir).value| - 1]
      && TrapAt(t.2, cand).None? && ItemDropTarget(g, t.2, cand) == Ok(Some(q))
    ensures ThrowAsWritten(g, s, hk, dir, item).Ok?
    ensures multiset(ThrowAsWritten(g, s, hk, dir, item).value.inventory) == multiset(s.inventory) - multiset{item}
    ensures ThrowAsWritten(g, s, hk, dir, item).value.items == s.items
    ensures ThrowResult(g, s, hk, dir, item).Ok?
    ensures multiset(ThrowResult(g, s, hk, dir, item).value.inventory) == multiset(s.inventory) - multiset{item}
    ensures ThrowResult(g, s, hk, dir, item).value.items == s.items + [item.(pos := Some(q))]
  {
    var t := Thrown(s, dir, item).value;
    assert ThrowAsWritten(g, s, hk, dir, item) == ThrowFlight(g, t.2, hk, dir, t.0, t.1, true) == Landing(g, t.2, t.1, cand, true);
    assert ThrowResult(g, s, hk, dir, item) == ThrowFlight(g, t.2, hk, dir, t.0, t.1, false) == Landing(g, t.2, t.1, cand, false);
  }

  /** A throw of a floor item that hits nobody and whose flight ends on the
      cell the item lay on (for example, thrown from underfoot against an
      adjacent wall): as written the item, already taken off the board, is
      never put back and vanishes; as intended it stays on the floor. */
  lemma {:induction false} UnmovedItemStays(g: Grid, s: BoardState, hk: Hooks, dir: Vec, item: Item)
    requires Thrown(s, dir, item).Ok?
    requires var t := Thrown(s, dir, item).value;
      ThrowPath(g, t.2.characters[t.0].pos, dir).Ok?
      && FirstHit(t.2, ThrowPath(g, t.2.characters[t.0].pos, dir).value, 1).None?
      && item.pos == Some(ThrowPath(g, t.2.characters[t.0].pos, dir).value[|ThrowPath(g, t.2.characters[t.0].pos, dir).value| - 1])
    ensures ThrowAsWritten(g, s, hk, dir, item).Ok?
    ensures ThrowAsWritten(g, s, hk, dir, item).value.inventory == s.inventory
    ensures multiset(ThrowAsWritten(g, s, hk, dir, item).value.items) == multiset(s.items) - multiset{item}
    ensures ThrowResult(g, s, hk, dir, item).Ok?
    ensures ThrowResult(g, s, hk, dir, item).value.inventory == s.inventory
    ensures item in s.items ==> multiset(ThrowResult(g, s, hk, dir, item).value.items) == multiset(s.items)
  {
    var t := Thrown(s, dir, item).value;
    var path := ThrowPath(g, t.2.characters[t.0].pos, dir).value;
    var cand := path[|path| - 1];
    assert t.1.pos == Some(cand);
    assert Landing(g, t.2, t.1, cand, true) == Ok(t.2);
    assert Landing(g, t.2, t.1, cand, false) == Ok(t.2.(items := t.2.items + [t.1]));
    assert ThrowAsWritten(g, s, hk, dir, item) == ThrowFlight(g, t.2, hk, dir, t.0, t.1, true) == Landing(g, t.2, t.1, cand, true);
    assert ThrowResult(g, s, hk, dir, item) == ThrowFlight(g, t.2, hk, dir, t.0, t.1, false) == Landing(g, t.2, t.1, cand, false);
    assert multiset(t.2.items + [t.1]) == multiset(t.2.items) + multiset{item};
  }

  /** A thrown item that reaches a character is handed to that character:
      the first one standing on the first occupied cell after the start. */
  lemma ThrowHits(g: Grid, s: BoardState, hk: Hooks, dir: Vec, item: Item) returns (i: nat, ci: nat)
    requires Thrown(s, dir, item).Ok?
    requires var t := Thrown(s, dir, item).value;
      ThrowPath(g, t.2.characters[t.0].pos, dir).Ok?
      && FirstHit(t.2, ThrowPath(g, t.2.characters[t.0].pos, dir).value, 1).Some?
    ensures var t := Thrown(s, dir, item).value;
      var path := ThrowPath(g, t.2.characters[t.0].pos, dir).value;
      1 <= i < |path| && ci < |t.2.characters| && t.2.characters[ci].pos == path[i]
      && (forall j | 1 <= j < i :: |CharactersAt(t.2.characters, path[j])| == 0)
      && ThrowResult(g, s, hk, dir, item) == HitByProjectile(g, t.2, hk, ci, item, dir, t.2.characters[t.0])
  {
    var t := Thrown(s, dir, item).value;
    var path := ThrowPath(g, t.2.characters[t.0].pos, dir).value;
    i := FirstHit(t.2, path, 1).value;
    ci := CharacterIndexAt(t.2.characters, path[i]).value;
  }

  /** `item_land` in place (as intended). */
  method ItemLandOn(b: Board, it: Item, cand: Vec) returns (st: Status)
    modifies b
    ensures st == Done <==> ItemLand(b.grid, old(b.State()), it, cand).Ok?
    ensures st == Done ==> b.State() == ItemLand(b.grid, old(b.State()), it, cand).value
  {
    var trap := TrapAtIn(b.traps, cand);
    if trap.Some? {
      TrapHooks.LandOn(b, trap.value);
      return Done;
    }
    var q := b.ItemDrop(cand);
    if q.Err? {
      return Failed(q.error);
    }
    if q.value.Some? {
      b.items := b.items + [it.(pos := q.value)];
    }
    return Done;
  }

  /** The start of `CommandThrow#execute` in place: face `dir`, look the
      item up, `destroy_item!` it. */
  method TakeThrown(b: Board, dir: Vec, item: Item) returns (r: Result<(nat, Item)>)
    modifies b
    ensures r.Ok? <==> Thrown(old(b.State()), dir, item).Ok?
    ensures r.Err? ==> r.error == Thrown(old(b.State()), dir, item).error
    ensures r.Ok? ==> (r.value.0, r.value.1, b.State()) == Thrown(old(b.State()), dir, item).value
  {
    var ai := AsukaIndex(b.characters);
    if ai.None? {
      return Err(NoProtagonist);
    }
    b.characters := b.characters[ai.value := b.characters[ai.value].(dir := dir)];
    var found := FindEql(b.inventory, item);
    if found.None? {
      found := FindEql(b.items, item);
    }
    if found.None? {
      return Err(NoMethodError);
    }
    b.DestroyItem(found.value);
    return Ok((ai.value, found.value));
  }

  /** The flight in place (with `item_land` as intended). */
  method FlyThrown(b: Board, hk: Hooks, dir: Vec, ai: nat, it: Item) returns (st: Status)
    requires ai < |b.characters|
    modifies b
    ensures st == Done <==> ThrowFlight(b.grid, old(b.State()), hk, dir, ai, it, false).Ok?
    ensures st == Done ==> b.State() == ThrowFlight(b.grid, old(b.State()), hk, dir, ai, it, false).value
  {
    ghost var s := b.State();
    var a := b.characters[ai];
    var path := ThrowTrajectory(b.grid, a.pos, dir);
    if path.Err? {
      return Failed(path.error);
    }
    var i := 1;
    while i < |path.value|
      invariant 1 <= i <= |path.value|
      invariant FirstHit(s, path.value, 1) == FirstHit(s, path.value, i)
    {
      var ci := CharacterIndexAt(b.characters, path.value[i]);
      if ci.Some? {
        assert FirstHit(s, path.value, i) == Some(i);
        st := HitByProjectileOn(b, hk, ci.value, it, dir, a);
        return;
      }
      i := i + 1;
    }
    var cand := path.value[|path.value| - 1];
    if it.pos != Some(cand) {
      st := ItemLandOn(b, it, cand);
    } else {
      b.items := b.items + [it];
      st := Done;
    }
  }

  /** `CommandThrow#execute` in place (with `item_land` as intended). */
  method ExecuteThrow(b: Board, hk: Hooks, dir: Vec, item: Item) returns (st: Status)
    modifies b
    ensures st == Done <==> ThrowResult(b.grid, old(b.State()), hk, dir, item).Ok?
    ensures st == Done ==> b.State() == ThrowResult(b.grid, old(b.State()), hk, dir, item).value
  {
    var t := TakeThrown(b, dir, item);
    if t.Err? {
      return Failed(t.error);
    }
    st := FlyThrown(b, hk, dir, t.value.0, t.value.1);
  }

  // ---------------------------------------------------------------- drop

  /** `CommandDrop#execute`: where the protagonist stands can take an item
      (`can_drop?`), one occurrence of the item leaves the inventory and is
      appended to the floor items at the protagonist's cell; elsewhere
      nothing changes. An item not in the inventory makes the source raise
      on nil. */
  function DropResult(g: Grid, s: BoardState, item: Item): (r: Result<BoardState>)
    ensures AsukaOf(s).Err? ==> r == Err(NoProtagonist)
    ensures AsukaOf(s).Ok? ==> (CanDrop(g, s, AsukaOf(s).value.pos).Err? <==> r == Err(RangeError))
    ensures AsukaOf(s).Ok? && CanDrop(g, s, AsukaOf(s).value.pos) == Ok(false) ==> r == Ok(s)
    ensures AsukaOf(s).Ok? && CanDrop(g, s, AsukaOf(s).value.pos) == Ok(true) ==>
      (r.Ok? <==> item in s.inventory)
    ensures r.Ok? && r.value != s ==>
      multiset(r.value.inventory) == multiset(s.inventory) - multiset{item}
      && r.value.items == s.items + [item.(pos := Some(AsukaOf(s).value.pos))]
      && r.value.characters == s.characters && r.value.kaidan == s.kaidan && r.value.traps == s.traps
    ensures AsukaOf(s).Ok? && CanDrop(g, s, AsukaOf(s).value.pos) == Ok(true) && item in s.inventory ==>
      r.Ok?
      && multiset(r.value.inventory) == multiset(s.inventory) - multiset{item}
      && r.value.items == s.items + [item.(pos := Some(AsukaOf(s).value.pos))]
      && r.value.characters == s.characters && r.value.kaidan == s.kaidan && r.value.traps == s.traps
  {
    match AsukaOf(s)
    case Err(e) => Err(e)
    case Ok(a) =>
      match CanDrop(g, s, a.pos)
      case Err(e) => Err(e)
      case Ok(can) =>
        if !can then Ok(s)
        else match FindEql(s.inventory, item)
          case None => Err(NoMethodError)
          case Some(it) => Ok(s.(inventory := DeleteFirst(s.inventory, it), items := s.items + [it.(pos := Some(a.pos))]))
  }

  /** `CommandDrop#execute` in place. */
  method ExecuteDrop(b: Board, item: Item) returns (st: Status)
    modifies b
    ensures st == Done <==> DropResult(b.grid, old(b.State()), item).Ok?
    ensures st == Done ==> b.State() == DropResult(b.grid, old(b.State()), item).value
  {
    var a := AsukaOf(b.State());
    if a.Err? {
      return Failed(a.error);
    }
    var can := CanDrop(b.grid, b.State(), a.value.pos);
    if can.Err? {
      return Failed(can.error);
    }
    if can.value {
      var found := FindEql(b.inventory, item);
      if found.None? {
        return Failed(NoMethodError);
      }
      b.inventory := DeleteFirst(b.inventory, found.value);
      b.items := b.items + [found.value.(pos := Some(a.value.pos))];
    }
    return Done;
  }

  // ---------------------------------------------------------------- pick

  /** `CommandPick#execute` as written: the "item" is the boolean `any?`
      returns, and the test inside compares a position with the protagonist
      object, so it is false and nothing is picked up. Asking for the
      protagonist raises when there is none and the floor holds an item. */
  function PickAsWritten(s: BoardState): (r: Result<BoardState>)
    ensures r.Ok? ==> r.value == s
    ensures r.Err? <==> |s.items| > 0 && AsukaOf(s).Err?
  {
    if |s.items| > 0 && AsukaOf(s).Err? then Err(NoProtagonist) else Ok(s)
  }

  /** Picking up as intended: the first floor item on the protagonist's cell
      moves to the inventory, its position cleared. */
  function PickResult(s: BoardState): (r: Result<BoardState>)
    ensures AsukaOf(s).Err? ==> r == Err(NoProtagonist)
    ensures AsukaOf(s).Ok? && ItemAt(s, AsukaOf(s).value.pos).None? ==> r == Ok(s)
    ensures AsukaOf(s).Ok? && ItemAt(s, AsukaOf(s).value.pos).Some? ==>
      var it := ItemAt(s, AsukaOf(s).value.pos).value;
      r.Ok? && multiset(r.value.items) == multiset(s.items) - multiset{it}
      && r.value.inventory == s.inventory + [it.(pos := None)]
      && r.value.characters == s.characters && r.value.kaidan == s.kaidan && r.value.traps == s.traps
  {
    match AsukaOf(s)
    case Err(e) => Err(e)
    case Ok(a) =>
      match ItemAt(s, a.pos)
      case None => Ok(s)
      case Some(it) => Ok(s.(items := DeleteFirst(s.items, it), inventory := s.inventory + [it.(pos := None)]))
  }

  /** With an item at the protagonist's feet, the code as written leaves it
      there while picking up should take it. */
  lemma PickAsWrittenPicksNothing(s: BoardState)
    requires AsukaOf(s).Ok? && ItemAt(s, AsukaOf(s).value.pos).Some?
    ensures PickAsWritten(s) == Ok(s)
    ensures PickResult(s).Ok? && PickResult(s).value != s
  {
    var it := ItemAt(s, AsukaOf(s).value.pos).value;
    assert |PickResult(s).value.inventory| == |s.inventory| + 1;
  }

  /** Picking up in place (as intended). */
  method ExecutePick(b: Board) returns (st: Status)
    modifies b
    ensures st == Done <==> PickResult(old(b.State())).Ok?
    ensures st == Done ==> b.State() == PickResult(old(b.State())).value
  {
    var a := AsukaOf(b.State());
    if a.Err? {
      return Failed(a.error);
    }
    var ii := ItemIndexAt(b.items, a.value.pos);
    if ii.Some? {
      var it := b.items[ii.value];
      b.items := DeleteFirst(b.items, it);
      b.inventory := b.inventory + [it.(pos := None)];
    }
    return Done;
  }

  // ----------------------------------------------------------------- use

  /** `CommandUse#execute`: the protagonist faces `dir` and uses the item. */
  function UseResult(g: Grid, s: BoardState, hk: Hooks, dir: Vec, item: Item): (r: Result<BoardState>)
    ensures AsukaIndex(s.characters).None? ==> r == Err(NoProtagonist)
    ensures AsukaIndex(s.characters).Some? ==>
      var ai := AsukaIndex(s.characters).value;
      var faced := s.(characters := s.characters[ai := s.characters[ai].(dir := dir)]);
      r == ItemEffects.Use(g, faced, hk, item, faced.characters[ai])
  {
    match AsukaIndex(s.characters)
    case None => Err(NoProtagonist)
    case Some(ai) =>
      var faced := s.(characters := s.characters[ai := s.characters[ai].(dir := dir)]);
      ItemEffects.Use(g, faced, hk, item, faced.characters[ai])
  }

  /** `CommandUse#execute` in place. */
  method ExecuteUse(b: Board, hk: Hooks, dir: Vec, item: Item) returns (st: Status)
    modifies b
    ensures st == Done <==> UseResult(b.grid, old(b.State()), hk, dir, item).Ok?
    ensures st == Done ==> b.State() == UseResult(b.grid, old(b.State()), hk, dir, item).value
  {
    var ai := AsukaIndex(b.characters);
    if ai.None? {
      return Failed(NoProtagonist);
    }
    b.characters := b.characters[ai.value := b.characters[ai.value].(dir := dir)];
    st := ItemEffects.UseOn(b, hk, item, b.characters[ai.value]);
  }

  // ------------------------------------------------------------- execute

  /** `cmd.execute(board)`, with the intended `item_land`, pick and item use. */
  function Execute(g: Grid, s: BoardState, hk: Hooks, cmd: Command): (r: Result<BoardState>)
    ensures cmd.Move? ==> r == MoveResult(g, s, cmd.dir, cmd.pick)
    ensures cmd.Throw? ==> r == ThrowResult(g, s, hk, cmd.dir, cmd.item)
    ensures cmd.Drop? ==> r == DropResult(g, s, cmd.item)
    ensures cmd.Pick? ==> r == PickResult(s)
    ensures cmd.Use? ==> r == UseResult(g, s, hk, cmd.dir, cmd.item)
  {
    match cmd
    case Move(d, p) => MoveResult(g, s, d, p)
    case Throw(d, it) => ThrowResult(g, s, hk, d, it)
    case Drop(it) => DropResult(g, s, it)
    case Pick => PickResult(s)
    case Use(d, it) => UseResult(g, s, hk, d, it)
  }

  /** `cmd.execute(board)` in place. */
  method ExecuteOn(b: Board, hk: Hooks, cmd: Command) returns (st: Status)
    modifies b
    ensures st == Done <==> Execute(b.grid, old(b.State()), hk, cmd).Ok?
    ensures st == Done ==> b.State() == Execute(b.grid, old(b.State()), hk, cmd).value
  {
    match cmd
    case Move(d, p) => st := ExecuteMove(b, d, p);
    case Throw(d, it) => st := ExecuteThrow(b, hk, d, it);
    case Drop(it) => st := ExecuteDrop(b, it);
    case Pick => st := ExecutePick(b);
    case Use(d, it) => st := ExecuteUse(b, hk, d, it);
  }
}
