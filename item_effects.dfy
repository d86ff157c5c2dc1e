/** `Item#use` and the pull wand (`execute_hikiyose`,
    `hikiyose_target_direction`, `hikiyose_move`) of item.rb. The swap
    wand and the bullet's path are hooks. */
module ItemEffects {
  import opened Results
  import opened Geometry
  import opened Bags
  import opened Items
  import opened Characters
  import opened Boards
  import opened Hooks
  import opened Trajectories

  /** `hikiyose_target_direction`: the last `[pos, dir]` of the bullet's
      path, when the bullet left its start cell and stopped on a character, a
      floor item or the stairs; otherwise no target. */
  function HikiyoseTarget(s: BoardState, traj: seq<(Vec, Vec)>): (r: Option<(Vec, Vec)>)
    ensures r.Some? <==> |traj| >= 2 && TopObjectAt(s, traj[|traj| - 1].0).Some?
    ensures r.Some? ==> r.value == traj[|traj| - 1]
  {
    if |traj| <= 1 then None
    else
      var last := traj[|traj| - 1];
      if |CharactersAt(s.characters, last.0)| > 0 || ItemAt(s, last.0).Some? || s.kaidan.pos == last.0 then Some(last)
      else None
  }

  function CharacterPositions(cs: seq<Character>): (r: seq<Vec>)
    ensures |r| == |cs| && forall i | 0 <= i < |cs| :: r[i] == cs[i].pos
  {
    seq(|cs|, i requires 0 <= i < |cs| => cs[i].pos)
  }

  /** `obstacles`: the cells a pulled thing cannot enter: a character's
      cell, a wall or rock, and the protagonist's cell. */
  function Obstacles(g: Grid, s: BoardState, asukaPos: Vec): (r: seq<Vec>)
    ensures forall p :: p in r <==> (exists c | c in s.characters :: c.pos == p) || IsWall(g, p) || p == asukaPos
  {
    var cp := CharacterPositions(s.characters);
    assert forall p :: p in cp <==> exists c | c in s.characters :: c.pos == p by {
      forall p | exists c | c in s.characters :: c.pos == p ensures p in cp {
        var c :| c in s.characters && c.pos == p;
        var i :| 0 <= i < |s.characters| && s.characters[i] == c;
        assert cp[i] == p;
      }
    }
    cp + Walls(g) + [asukaPos]
  }

  /** The cell `k` steps along `dir` from `from`. */
  function Ray(from: Vec, dir: Vec, k: nat): Vec
  {
    if k == 0 then from else Plus(Ray(from, dir, k - 1), dir)
  }

  /** Taxicab distance. */
  function L1(a: Vec, b: Vec): nat
  {
    Abs(a.x - b.x) + Abs(a.y - b.y)
  }

  /** The farthest (taxicab) any obstacle lies from `from`: no step count
      beyond it can reach one. */
  function Reach(obs: seq<Vec>, from: Vec): (r: nat)
    ensures forall o | o in obs :: L1(o, from) <= r
  {
    if |obs| == 0 then 0
    else
      var rest := Reach(obs[1..], from);
      assert forall o | o in obs :: o == obs[0] || o in obs[1..];
      if L1(obs[0], from) > rest then L1(obs[0], from) else rest
  }

  /** The first step count from `k` to `bound` that meets an obstacle. */
  function FirstObstacle(obs: seq<Vec>, from: Vec, dir: Vec, k: nat, bound: nat): (r: Option<nat>)
    ensures r.Some? ==> k <= r.value <= bound && Ray(from, dir, r.value) in obs
    ensures r.Some? ==> forall i | k <= i < r.value :: Ray(from, dir, i) !in obs
    ensures r.None? ==> forall i | k <= i <= bound :: Ray(from, dir, i) !in obs
    decreases bound + 1 - k
  {
    if k > bound then None
    else if Ray(from, dir, k) in obs then Some(k)
    else FirstObstacle(obs, from, dir, k + 1, bound)
  }

  /** The cell before the first of `obs` along `dir` from `from`, or
      `Diverges` when no step count up to the farthest obstacle meets one. */
  function SlideIn(obs: seq<Vec>, from: Vec, dir: Vec): (r: Result<Vec>)
    ensures r.Err? ==> r.error == Diverges
    ensures r.Ok? ==> Plus(r.value, dir) in obs
  {
    match FirstObstacle(obs, from, dir, 1, Reach(obs, from) + 1)
    case None => Err(Diverges)
    case Some(j) => Ok(Ray(from, dir, j - 1))
  }

  /** Where `hikiyose_move` stops: the last cell before the first obstacle
      along `dir`. When no obstacle ever comes the source loops forever;
      the model reports `Diverges` instead. */
  function PullDestination(g: Grid, s: BoardState, from: Vec, dir: Vec): (r: Result<Vec>)
    ensures AsukaOf(s).Err? ==> r == Err(NoProtagonist)
    ensures r.Err? ==> r.error == NoProtagonist || r.error == Diverges
    ensures r.Ok? ==> AsukaOf(s).Ok? && Plus(r.value, dir) in Obstacles(g, s, AsukaOf(s).value.pos)
  {
    match AsukaOf(s)
    case Err(e) => Err(e)
    case Ok(asuka) => SlideIn(Obstacles(g, s, asuka.pos), from, dir)
  }

  /** The slide stops `j` steps out, and none of steps 1 to `j` meets an
      obstacle. */
  lemma SlideInPassesOnlyFreeCells(obs: seq<Vec>, from: Vec, dir: Vec) returns (j: nat)
    requires SlideIn(obs, from, dir).Ok?
    ensures SlideIn(obs, from, dir).value == Ray(from, dir, j)
    ensures forall i | 1 <= i <= j :: Ray(from, dir, i) !in obs
  {
    var k := FirstObstacle(obs, from, dir, 1, Reach(obs, from) + 1);
    j := k.value - 1;
  }

  /** Every cell the pulled thing passes through, its final cell included,
      is free of obstacles. */
  lemma PullPassesOnlyFreeCells(g: Grid, s: BoardState, from: Vec, dir: Vec) returns (j: nat)
    requires PullDestination(g, s, from, dir).Ok?
    ensures PullDestination(g, s, from, dir).value == Ray(from, dir, j)
    ensures forall i | 1 <= i <= j :: Ray(from, dir, i) !in Obstacles(g, s, AsukaOf(s).value.pos)
  {
    j := SlideInPassesOnlyFreeCells(Obstacles(g, s, AsukaOf(s).value.pos), from, dir);
  }

  /** `k` steps along a direction other than zero cover a taxicab
      distance of at least `k`; along zero they stay put. */
  lemma {:induction false} RayDistance(from: Vec, dir: Vec, k: nat)
    ensures dir.x >= 0 ==> Ray(from, dir, k).x >= from.x
    ensures dir.x <= 0 ==> Ray(from, dir, k).x <= from.x
    ensures dir.y >= 0 ==> Ray(from, dir, k).y >= from.y
    ensures dir.y <= 0 ==> Ray(from, dir, k).y <= from.y
    ensures dir != Vec(0, 0) ==> L1(Ray(from, dir, k), from) >= k
    ensures dir == Vec(0, 0) ==> Ray(from, dir, k) == from
  {
    if k > 0 {
      RayDistance(from, dir, k - 1);
    }
  }

  /** When the model reports divergence, the source's loop indeed never
      ends: no obstacle lies anywhere along `dir`. */
  lemma PullDivergesOnlyWhenNothingAhead(g: Grid, s: BoardState, from: Vec, dir: Vec, k: nat)
    requires PullDestination(g, s, from, dir) == Err(Diverges)
    requires 1 <= k
    ensures Ray(from, dir, k) !in Obstacles(g, s, AsukaOf(s).value.pos)
  {
    var obs := Obstacles(g, s, AsukaOf(s).value.pos);
    var bound := Reach(obs, from) + 1;
    assert SlideIn(obs, from, dir).Err?;
    assert FirstObstacle(obs, from, dir, 1, bound).None?;
    if k > bound && Ray(from, dir, k) in obs {
      RayDistance(from, dir, k);
      RayDistance(from, dir, 1);
    }
  }

  /** The loop of `hikiyose_move`: advance while the next cell is not in
      `obs`, stopped once it has passed every obstacle's distance. */
  method Slide(obs: seq<Vec>, from: Vec, dir: Vec) returns (r: Result<Vec>)
    ensures r == SlideIn(obs, from, dir)
  {
    var bound := Reach(obs, from) + 1;
    var x, y := from.x, from.y;
    var k: nat := 0;
    while k < bound
      invariant k <= bound
      invariant Vec(x, y) == Ray(from, dir, k)
      invariant FirstObstacle(obs, from, dir, 1, bound) == FirstObstacle(obs, from, dir, k + 1, bound)
    {
      if Vec(x + dir.x, y + dir.y) in obs {
        assert Vec(x + dir.x, y + dir.y) == Ray(from, dir, k + 1);
        return Ok(Vec(x, y));
      }
      assert Vec(x + dir.x, y + dir.y) == Ray(from, dir, k + 1);
      x, y := x + dir.x, y + dir.y;
      k := k + 1;
    }
    return Err(Diverges);
  }

  /** `hikiyose_move`: the obstacles are gathered, then the loop runs. */
  method HikiyoseMove(g: Grid, s: BoardState, from: Vec, dir: Vec) returns (r: Result<Vec>)
    ensures r == PullDestination(g, s, from, dir)
  {
    var asuka := AsukaOf(s);
    if asuka.Err? {
      return Err(asuka.error);
    }
    r := Slide(Obstacles(g, s, asuka.value.pos), from, dir);
  }

  /** The board after the target on `target` is pulled towards `newpos`:
      a character is taken out, dropped by `character_drop` from `newpos`
      and put back; a floor item goes where `item_drop` from `newpos` says
      (nowhere when that is nil); the stairs move to `newpos`. */
  function PullTarget(g: Grid, s: BoardState, target: Vec, newpos: Vec): (r: Result<BoardState>)
    ensures r.Ok? ==> r.value.inventory == s.inventory && r.value.traps == s.traps
    ensures r.Ok? ==> |r.value.characters| == |s.characters|
    ensures r.Err? ==> r.error in {NoLandingSpot, RangeError, NoMethodError, UncoveredCase}
    ensures r == Err(UncoveredCase) <==> TopObjectAt(s, target).None?
  {
    match CharacterIndexAt(s.characters, target)
    case Some(ci) =>
      var c := s.characters[ci];
      var rest := DeleteFirst(s.characters, c);
      (match CharacterDrop(g, s.(characters := rest), newpos, c.dir)
       case Err(e) => Err(e)
       case Ok(q) => Ok(s.(characters := rest + [c.(pos := q)])))
    case None =>
      match ItemIndexAt(s.items, target)
      case Some(ii) =>
        (match ItemDropTarget(g, s, newpos)
         case Err(e) => Err(e)
         case Ok(q) => Ok(s.(items := s.items[ii := s.items[ii].(pos := q)])))
      case None =>
        if s.kaidan.pos == target then Ok(s.(kaidan := Kaidan(newpos))) else Err(UncoveredCase)
  }

  /** A pulled character keeps everything but its cell, which is a free
      landing spot within two steps of `newpos`. */
  lemma PulledCharacterLands(g: Grid, s: BoardState, target: Vec, newpos: Vec)
    requires PullTarget(g, s, target, newpos).Ok?
    requires |CharactersAt(s.characters, target)| > 0
    ensures var c := CharactersAt(s.characters, target)[0];
            var t := PullTarget(g, s, target, newpos).value;
            var q := t.characters[|t.characters| - 1].pos;
            t.characters[|t.characters| - 1] == c.(pos := q)
            && multiset(t.characters) == multiset(s.characters) - multiset{c} + multiset{c.(pos := q)}
            && WithinBounds(g, q) && Chebyshev(q, newpos) <= 2
            && t.items == s.items && t.kaidan == s.kaidan
  {
    var ci := CharacterIndexAt(s.characters, target).value;
    var c := s.characters[ci];
    var rest := DeleteFirst(s.characters, c);
    var q := CharacterDrop(g, s.(characters := rest), newpos, c.dir).value;
    assert multiset(rest + [c.(pos := q)]) == multiset(rest) + multiset{c.(pos := q)};
  }

  /** `ReplaceFirst`: the first element equal to `x` becomes `y`. */
  function ReplaceFirst<T(==)>(s: seq<T>, x: T, y: T): (r: seq<T>)
    ensures |r| == |s|
    ensures x !in s ==> r == s
    ensures x in s ==> multiset(r) == multiset(s) - multiset{x} + multiset{y}
  {
    match IndexOf(s, x)
    case None => s
    case Some(i) =>
      assert s == s[..i] + [x] + s[i + 1..];
      assert s[i := y] == s[..i] + [y] + s[i + 1..];
      s[i := y]
  }

  /** `wand.number -= 1` on the wand where it lies: on the floor when it
      has a position, in the inventory otherwise. A wand with no number
      cannot be decremented (nil has no `-`). */
  function SpendCharge(s: BoardState, wand: Item): (r: Result<BoardState>)
    ensures r.Err? <==> wand.number.None?
    ensures r.Err? ==> r.error == NoMethodError
    ensures r.Ok? && wand.pos.None? ==> r.value == s.(inventory := r.value.inventory)
    ensures r.Ok? && wand.pos.Some? ==> r.value == s.(items := r.value.items)
    ensures r.Ok? && wand.pos.None? && wand in s.inventory ==>
      multiset(r.value.inventory) == multiset(s.inventory) - multiset{wand} + multiset{wand.(number := Some(wand.number.value - 1))}
    ensures r.Ok? && wand.pos.Some? && wand in s.items ==>
      multiset(r.value.items) == multiset(s.items) - multiset{wand} + multiset{wand.(number := Some(wand.number.value - 1))}
  {
    match wand.number
    case None => Err(NoMethodError)
    case Some(n) =>
      var spent := wand.(number := Some(n - 1));
      if wand.pos.Some? then Ok(s.(items := ReplaceFirst(s.items, wand, spent)))
      else Ok(s.(inventory := ReplaceFirst(s.inventory, wand, spent)))
  }

  /** `execute_hikiyose`: `actor` waves the pull wand `wand` the way it
      faces. */
  function Hikiyose(g: Grid, s: BoardState, hk: Hooks, wand: Item, actor: Character): (r: Result<BoardState>)
    // an empty wand does nothing
    ensures wand.number == Some(0) ==> r == Ok(s)
    // a bullet that hits nothing changes nothing
    ensures HikiyoseTarget(s, hk.bullet(g, s, actor.dir)).None? ==> r == Ok(s)
    // a target that would not move is left alone, and no charge is spent
    ensures (var t := HikiyoseTarget(s, hk.bullet(g, s, actor.dir));
             t.Some? && PullDestination(g, s, t.value.0, OppositeOf(t.value.1)) == Ok(t.value.0)) ==> r == Ok(s)
    ensures r.Ok? ==> |r.value.characters| == |s.characters| && r.value.traps == s.traps
  {
    if wand.number == Some(0) then Ok(s)
    else match HikiyoseTarget(s, hk.bullet(g, s, actor.dir))
      case None => Ok(s)
      case Some(t) =>
        match PullDestination(g, s, t.0, OppositeOf(t.1))
        case Err(e) => Err(e)
        case Ok(newpos) =>
          if newpos == t.0 then Ok(s)
          else match PullTarget(g, s, t.0, newpos)
            case Err(e) => Err(e)
            case Ok(pulled) => SpendCharge(pulled, wand)
  }

  /** A pull that changes the board used a charged wand, and a wand carried
      in the inventory comes back with its number one lower. */
  lemma HikiyoseSpendsOneCharge(g: Grid, s: BoardState, hk: Hooks, wand: Item, actor: Character)
    requires Hikiyose(g, s, hk, wand, actor).Ok? && Hikiyose(g, s, hk, wand, actor).value != s
    ensures wand.number.Some? && wand.number.value != 0
    ensures wand.pos.None? && wand in s.inventory ==>
      multiset(Hikiyose(g, s, hk, wand, actor).value.inventory)
        == multiset(s.inventory) - multiset{wand} + multiset{wand.(number := Some(wand.number.value - 1))}
  {
    var t := HikiyoseTarget(s, hk.bullet(g, s, actor.dir)).value;
    var newpos := PullDestination(g, s, t.0, OppositeOf(t.1)).value;
    var pulled := PullTarget(g, s, t.0, newpos).value;
    assert Hikiyose(g, s, hk, wand, actor) == SpendCharge(pulled, wand);
  }

  /** `use`: the pull wand pulls, the swap wand swaps, and any other item is
      consumed: one occurrence leaves the inventory. */
  function Use(g: Grid, s: BoardState, hk: Hooks, item: Item, actor: Character): (r: Result<BoardState>)
    ensures item.name == WandHikiyose ==> r == Hikiyose(g, s, hk, item, actor)
    ensures item.name == WandBashogae ==> r == hk.bashogae(g, s, item, actor)
    ensures item.name != WandHikiyose && item.name != WandBashogae ==>
      r.Ok? && r.value == s.(inventory := r.value.inventory)
      && multiset(r.value.inventory) == multiset(s.inventory) - multiset{item}
  {
    if item.name == WandHikiyose then Hikiyose(g, s, hk, item, actor)
    else if item.name == WandBashogae then hk.bashogae(g, s, item, actor)
    else Ok(s.(inventory := DeleteFirst(s.inventory, item)))
  }

  /** `use` as written: its fallback branch names `inventory` and `item`,
      which do not exist inside Item, so any other item raises NameError. */
  function UseAsWritten(g: Grid, s: BoardState, hk: Hooks, item: Item, actor: Character): (r: Result<BoardState>)
    ensures item.name == WandHikiyose || item.name == WandBashogae ==> r == Use(g, s, hk, item, actor)
  {
    if item.name == WandHikiyose || item.name == WandBashogae then Use(g, s, hk, item, actor)
    else Err(NameError)
  }

  /** Using a herb raises with the code as written, where it should only use
      the herb up. */
  lemma UseAsWrittenRaisesOnHerb(g: Grid, s: BoardState, hk: Hooks, item: Item, actor: Character)
    requires item.name == HerbZassou
    ensures UseAsWritten(g, s, hk, item, actor) == Err(NameError)
    ensures Use(g, s, hk, item, actor).Ok?
  {
  }

  /** `execute_hikiyose` in place on a board. */
  method ExecuteHikiyose(b: Board, hk: Hooks, wand: Item, actor: Character) returns (st: Status)
    modifies b
    ensures st == Done <==> Hikiyose(b.grid, old(b.State()), hk, wand, actor).Ok?
    ensures st == Done ==> b.State() == Hikiyose(b.grid, old(b.State()), hk, wand, actor).value
  {
    ghost var s := b.State();
    if wand.number == Some(0) {
      return Done;
    }
    var target := HikiyoseTarget(b.State(), hk.bullet(b.grid, b.State(), actor.dir));
    if target.None? {
      return Done;
    }
    var t := target.value;
    var newpos := HikiyoseMove(b.grid, b.State(), t.0, OppositeOf(t.1));
    if newpos.Err? {
      return Failed(newpos.error);
    }
    if newpos.value == t.0 {
      return Done;
    }
    st := PullOn(b, t.0, newpos.value);
    if st.Failed? {
      return;
    }
    ghost var pulled := b.State();
    assert Hikiyose(b.grid, s, hk, wand, actor) == SpendCharge(pulled, wand);
    st := SpendChargeOn(b, wand);
  }

  /** `wand.number -= 1`, in place. */
  method SpendChargeOn(b: Board, wand: Item) returns (st: Status)
    modifies b
    ensures st == Done <==> SpendCharge(old(b.State()), wand).Ok?
    ensures st == Done ==> b.State() == SpendCharge(old(b.State()), wand).value
  {
    if wand.number.None? {
      return Failed(NoMethodError);
    }
    ghost var s := b.State();
    var spent := wand.(number := Some(wand.number.value - 1));
    if wand.pos.Some? {
      b.items := ReplaceFirst(b.items, wand, spent);
      assert b.State() == s.(items := ReplaceFirst(s.items, wand, spent));
    } else {
      b.inventory := ReplaceFirst(b.inventory, wand, spent);
      assert b.State() == s.(inventory := ReplaceFirst(s.inventory, wand, spent));
    }
    return Done;
  }

  /** The pulling part of `execute_hikiyose`, in place. */
  method PullOn(b: Board, target: Vec, newpos: Vec) returns (st: Status)
    modifies b
    ensures st == Done <==> PullTarget(b.grid, old(b.State()), target, newpos).Ok?
    ensures st == Done ==> b.State() == PullTarget(b.grid, old(b.State()), target, newpos).value
  {
    var ci := CharacterIndexAt(b.characters, target);
    if ci.Some? {
      var c := b.characters[ci.value];
      b.characters := DeleteFirst(b.characters, c);
      var q := CharacterDrop(b.grid, b.State(), newpos, c.dir);
      if q.Err? {
        return Failed(q.error);
      }
      b.characters := b.characters + [c.(pos := q.value)];
    } else {
      var ii := ItemIndexAt(b.items, target);
      if ii.Some? {
        var q := b.ItemDrop(newpos);
        if q.Err? {
          return Failed(q.error);
        }
        b.items := b.items[ii.value := b.items[ii.value].(pos := q.value)];
      } else if b.kaidan.pos == target {
        b.kaidan := Kaidan(newpos);
      } else {
        return Failed(UncoveredCase);
      }
    }
    return Done;
  }

  /** `use` in place on a board. */
  method UseOn(b: Board, hk: Hooks, item: Item, actor: Character) returns (st: Status)
    modifies b
    ensures st == Done <==> Use(b.grid, old(b.State()), hk, item, actor).Ok?
    ensures st == Done ==> b.State() == Use(b.grid, old(b.State()), hk, item, actor).value
  {
    if item.name == WandHikiyose {
      st := ExecuteHikiyose(b, hk, item, actor);
    } else if item.name == WandBashogae {
      var r := hk.bashogae(b.grid, b.State(), item, actor);
      if r.Err? {
        return Failed(r.error);
      }
      b.SetComponents(r.value);
      st := Done;
    } else {
      b.inventory := DeleteFirst(b.inventory, item);
      st := Done;
    }
  }
}
