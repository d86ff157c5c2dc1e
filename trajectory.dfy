/** The magic bullet of main.rb: `max_bullet_trajectory`, the endless
    enumerator of `[pos, dir]` pairs a wand's bullet passes through, and the
    two truncations of it the wands use, `mover_bullet_trajectory` and
    `normal_bullet_trajectory`. The enumerator is endless in the source (a
    bullet leaving the grid never meets a wall), so the model draws at most
    `fuel` pairs from it. */
module Trajectories {
  import opened Results
  import opened Geometry
  import opened Boards

  /** `walls`: the positions of '■' and '◆', the cells a bullet cannot
      enter. Outside the grid nothing is a wall. */
  function Walls(g: Grid): (r: seq<Vec>)
    ensures forall p :: p in r <==> IsWall(g, p)
  {
    Positions(Wall, g) + Positions(Rock, g)
  }

  predicate IsWall(g: Grid, p: Vec)
  {
    WithinBounds(g, p) && IsWallOrRock(g[p.y][p.x])
  }

  /** The enumerator's three loop variables. */
  datatype Shot = Shot(pos: Vec, dir: Vec, reflected: bool)

  /** One turn of the enumerator's loop after it yielded `[pos, dir]`: fly
      on, vanish (`break`), or raise (the corner case with `|dx * dy| > 1`). */
  datatype StepResult = Fly(next: Shot) | Vanish | Broken

  /** The cell straight ahead. */
  function Ahead(p: Vec, d: Vec): Vec
  {
    Plus(p, d)
  }

  /** Cases A-D of the source, after the straight move. */
  function BulletStep(g: Grid, s: Shot): (r: StepResult)
    ensures r.Fly? ==> !IsWall(g, r.next.pos)
    ensures !IsWall(g, Ahead(s.pos, s.dir)) <==> r == Fly(Shot(Ahead(s.pos, s.dir), s.dir, s.reflected))
    ensures r.Fly? && IsWall(g, Ahead(s.pos, s.dir)) ==> !s.reflected && r.next.reflected
    ensures r.Broken? ==> !s.reflected && (s.dir.x * s.dir.y < -1 || s.dir.x * s.dir.y > 1)
  {
    var x, y, dx, dy := s.pos.x, s.pos.y, s.dir.x, s.dir.y;
    if !IsWall(g, Vec(x + dx, y + dy)) then Fly(Shot(Vec(x + dx, y + dy), Vec(dx, dy), s.reflected))
    else if dx * dy == 0 then Vanish
    else
      var a := IsWall(g, Vec(x + dx, y));
      var b := IsWall(g, Vec(x, y + dy));
      if a && !b then
        if !s.reflected then Fly(Shot(Vec(x, y + dy), Vec(-dx, dy), true)) else Vanish
      else if !a && b then
        if !s.reflected then Fly(Shot(Vec(x + dx, y), Vec(dx, -dy), true)) else Vanish
      else if a && b then Vanish
      else if s.reflected then Vanish
      else if dx * dy == 1 then Fly(Shot(Vec(x + dx, y), Vec(dx, -dy), true))
      else if dx * dy == -1 then Fly(Shot(Vec(x, y + dy), Vec(-dx, dy), true))
      else Broken
  }

  /** How the drawn part of the enumerator ends: the bullet vanished, the
      enumerator raised, or the model's budget ran out first. */
  datatype FlightEnd = Vanished | Raised | OutOfFuel

  datatype Flight = Flight(path: seq<(Vec, Vec)>, end: FlightEnd)

  /** At most `fuel` pairs of the enumerator started in state `s`. */
  function FlightFrom(g: Grid, s: Shot, fuel: nat): (r: Flight)
    ensures |r.path| <= fuel
    ensures fuel > 0 ==> |r.path| > 0 && r.path[0] == (s.pos, s.dir)
    ensures |r.path| < fuel ==> r.end != OutOfFuel
    decreases fuel
  {
    if fuel == 0 then Flight([], OutOfFuel)
    else
      var rest := match BulletStep(g, s)
        case Vanish => Flight([], Vanished)
        case Broken => Flight([], Raised)
        case Fly(n) => FlightFrom(g, n, fuel - 1);
      Flight([(s.pos, s.dir)] + rest.path, rest.end)
  }

  /** `max_bullet_trajectory(board, dir)`: the bullet leaves the
      protagonist's cell unreflected. */
  function MaxTrajectory(g: Grid, s: BoardState, dir: Vec, fuel: nat): (r: Result<Flight>)
    ensures r.Ok? <==> AsukaOf(s).Ok?
    ensures r.Ok? && fuel > 0 ==> |r.value.path| > 0 && r.value.path[0] == (AsukaOf(s).value.pos, dir)
  {
    match AsukaOf(s)
    case Err(e) => Err(e)
    case Ok(a) => Ok(FlightFrom(g, Shot(a.pos, dir, false), fuel))
  }

  /** The body of the enumerator's loop after the yield: cases A-D decided
      by membership in `walls`. */
  method Step(walls: seq<Vec>, ghost g: Grid, pos: Vec, d: Vec, reflected: bool) returns (r: StepResult)
    requires forall p :: p in walls <==> IsWall(g, p)
    ensures r == BulletStep(g, Shot(pos, d, reflected))
  {
    var x, y, dx, dy := pos.x, pos.y, d.x, d.y;
    if Vec(x + dx, y + dy) !in walls {
      return Fly(Shot(Vec(x + dx, y + dy), Vec(dx, dy), reflected));
    }
    if dx * dy == 0 {
      return Vanish;
    }
    var a := Vec(x + dx, y) in walls;
    var b := Vec(x, y + dy) in walls;
    if a && !b {
      r := if reflected then Vanish else Fly(Shot(Vec(x, y + dy), Vec(-dx, dy), true));
    } else if !a && b {
      r := if reflected then Vanish else Fly(Shot(Vec(x + dx, y), Vec(dx, -dy), true));
    } else if a && b {
      r := Vanish;
    } else if reflected {
      r := Vanish;
    } else if dx * dy == 1 {
      r := Fly(Shot(Vec(x + dx, y), Vec(dx, -dy), true));
    } else if dx * dy == -1 {
      r := Fly(Shot(Vec(x, y + dy), Vec(-dx, dy), true));
    } else {
      r := Broken;
    }
  }

  /** One draw from the enumerator: the pair of the current state, then
      what the step decides. */
  lemma FlightFirstStep(g: Grid, s: Shot, fuel: nat)
    requires fuel > 0
    ensures BulletStep(g, s) == Vanish ==> FlightFrom(g, s, fuel) == Flight([(s.pos, s.dir)], Vanished)
    ensures BulletStep(g, s) == Broken ==> FlightFrom(g, s, fuel) == Flight([(s.pos, s.dir)], Raised)
    ensures BulletStep(g, s).Fly? ==>
      FlightFrom(g, s, fuel).path == [(s.pos, s.dir)] + FlightFrom(g, BulletStep(g, s).next, fuel - 1).path
      && FlightFrom(g, s, fuel).end == FlightFrom(g, BulletStep(g, s).next, fuel - 1).end
  {
  }

  /** The pairs `drawn` so far followed by at most `fuel` more from state
      `shot`. */
  function Resumed(g: Grid, drawn: seq<(Vec, Vec)>, shot: Shot, fuel: nat): Flight
  {
    var rest := FlightFrom(g, shot, fuel);
    Flight(drawn + rest.path, rest.end)
  }

  /** One more draw: the pair of `shot` joins the drawn ones, and the step
      decides how the flight goes on. */
  lemma DrawOne(g: Grid, drawn: seq<(Vec, Vec)>, shot: Shot, fuel: nat)
    requires fuel > 0
    ensures var taken := drawn + [(shot.pos, shot.dir)];
      match BulletStep(g, shot)
      case Vanish => Resumed(g, drawn, shot, fuel) == Flight(taken, Vanished)
      case Broken => Resumed(g, drawn, shot, fuel) == Flight(taken, Raised)
      case Fly(next) => Resumed(g, drawn, shot, fuel) == Resumed(g, taken, next, fuel - 1)
  {
    FlightFirstStep(g, shot, fuel);
    match BulletStep(g, shot)
    case Vanish =>
    case Broken =>
    case Fly(next) =>
      assert drawn + [(shot.pos, shot.dir)] + FlightFrom(g, next, fuel - 1).path
        == drawn + ([(shot.pos, shot.dir)] + FlightFrom(g, next, fuel - 1).path);
  }

  /** The enumerator from state `start`, drawn `fuel` times: the wall list
      is computed once, then the loop runs. */
  method DrawFlight(g: Grid, start: Shot, fuel: nat) returns (r: Flight)
    ensures r == FlightFrom(g, start, fuel)
  {
    var walls := Walls(g);
    r := DrawWithin(walls, g, start, fuel);
  }

  /** The enumerator's loop, given the list of walls. */
  method DrawWithin(walls: seq<Vec>, ghost g: Grid, start: Shot, fuel: nat) returns (r: Flight)
    requires forall p :: p in walls <==> IsWall(g, p)
    ensures r == FlightFrom(g, start, fuel)
  {
    var shot := start;
    var res: seq<(Vec, Vec)> := [];
    var n := 0;
    assert Resumed(g, [], start, fuel) == FlightFrom(g, start, fuel);
    while n < fuel
      invariant 0 <= n <= fuel
      invariant FlightFrom(g, start, fuel) == Resumed(g, res, shot, fuel - n)
    {
      var step := Step(walls, g, shot.pos, shot.dir, shot.reflected);
      DrawOne(g, res, shot, fuel - n);
      res := res + [(shot.pos, shot.dir)];
      match step
      case Vanish =>
        return Flight(res, Vanished);
      case Broken =>
        return Flight(res, Raised);
      case Fly(next) =>
        shot := next;
      n := n + 1;
    }
    assert FlightFrom(g, shot, 0).path == [];
    return Flight(res, OutOfFuel);
  }

  /** `max_bullet_trajectory(board, dir)`, drawn `fuel` times. */
  method MaxBulletTrajectory(g: Grid, s: BoardState, dir: Vec, fuel: nat) returns (r: Result<Flight>)
    ensures r == MaxTrajectory(g, s, dir, fuel)
  {
    var asuka := AsukaOf(s);
    if asuka.Err? {
      return Err(asuka.error);
    }
    var f := DrawFlight(g, Shot(asuka.value.pos, dir, false), fuel);
    return Ok(f);
  }

  /** A step that is not the straight move to the cell ahead. */
  predicate Reflects(path: seq<(Vec, Vec)>, i: nat)
    requires i + 1 < |path|
  {
    path[i + 1] != (Ahead(path[i].0, path[i].1), path[i].1)
  }

  /** Drawing from a state that flies on: its own pair, then the next
      state's pairs. */
  lemma FlightUnfolds(g: Grid, s: Shot, fuel: nat)
    requires fuel > 0 && BulletStep(g, s).Fly?
    ensures var n := BulletStep(g, s).next;
      FlightFrom(g, s, fuel).path == [(s.pos, s.dir)] + FlightFrom(g, n, fuel - 1).path
      && FlightFrom(g, s, fuel).end == FlightFrom(g, n, fuel - 1).end
      && (fuel > 1 ==> FlightFrom(g, s, fuel).path[1] == (n.pos, n.dir))
  {
  }

  /** An unblocked step goes to the cell ahead and keeps the direction, and
      no pair after the first lies on a wall. */
  lemma {:induction false} FlightStepsAreOpen(g: Grid, s: Shot, fuel: nat)
    ensures forall i | 0 <= i < |FlightFrom(g, s, fuel).path| - 1
      && !IsWall(g, Ahead(FlightFrom(g, s, fuel).path[i].0, FlightFrom(g, s, fuel).path[i].1)) ::
      !Reflects(FlightFrom(g, s, fuel).path, i)
    ensures forall i | 1 <= i < |FlightFrom(g, s, fuel).path| :: !IsWall(g, FlightFrom(g, s, fuel).path[i].0)
    decreases fuel
  {
    if fuel > 0 && BulletStep(g, s).Fly? {
      var n := BulletStep(g, s).next;
      FlightStepsAreOpen(g, n, fuel - 1);
      FlightUnfolds(g, s, fuel);
      var p, q := FlightFrom(g, s, fuel).path, FlightFrom(g, n, fuel - 1).path;
      forall i | 1 <= i < |p| ensures !IsWall(g, p[i].0) {
        assert p[i] == q[i - 1];
      }
      forall i | 0 <= i < |p| - 1 && !IsWall(g, Ahead(p[i].0, p[i].1))
        ensures !Reflects(p, i)
      {
        if i > 0 {
          assert p[i] == q[i - 1] && p[i + 1] == q[i];
          assert !Reflects(q, i - 1);
        }
      }
    }
  }

  /** A bullet that has already reflected never reflects again. */
  lemma {:induction false} NoSecondReflection(g: Grid, s: Shot, fuel: nat)
    requires s.reflected
    ensures forall i | 0 <= i < |FlightFrom(g, s, fuel).path| - 1 :: !Reflects(FlightFrom(g, s, fuel).path, i)
    decreases fuel
  {
    if fuel > 0 && BulletStep(g, s).Fly? {
      var n := BulletStep(g, s).next;
      NoSecondReflection(g, n, fuel - 1);
      FlightUnfolds(g, s, fuel);
      var p, q := FlightFrom(g, s, fuel).path, FlightFrom(g, n, fuel - 1).path;
      forall i | 0 <= i < |p| - 1 ensures !Reflects(p, i) {
        if i > 0 {
          assert p[i] == q[i - 1] && p[i + 1] == q[i];
          assert !Reflects(q, i - 1);
        }
      }
    }
  }

  /** Past the first pair, the flight reflects where the rest of it does. */
  lemma ReflectsShift(g: Grid, s: Shot, fuel: nat, i: nat)
    requires fuel > 0 && BulletStep(g, s).Fly?
    requires 0 < i < |FlightFrom(g, s, fuel).path| - 1
    ensures var q := FlightFrom(g, BulletStep(g, s).next, fuel - 1).path;
      i < |q| && Reflects(FlightFrom(g, s, fuel).path, i) == Reflects(q, i - 1)
  {
    var n := BulletStep(g, s).next;
    FlightUnfolds(g, s, fuel);
    var p, q := FlightFrom(g, s, fuel).path, FlightFrom(g, n, fuel - 1).path;
    assert p[i] == q[i - 1] && p[i + 1] == q[i];
  }

  /** At most one reflection per flight. */
  lemma {:induction false} AtMostOneReflection(g: Grid, s: Shot, fuel: nat)
    requires !s.reflected
    ensures forall i, j | 0 <= i < j < |FlightFrom(g, s, fuel).path| - 1 ::
      !(Reflects(FlightFrom(g, s, fuel).path, i) && Reflects(FlightFrom(g, s, fuel).path, j))
    decreases fuel
  {
    if fuel > 0 && BulletStep(g, s).Fly? {
      var n := BulletStep(g, s).next;
      FlightUnfolds(g, s, fuel);
      var p, q := FlightFrom(g, s, fuel).path, FlightFrom(g, n, fuel - 1).path;
      if n.reflected {
        NoSecondReflection(g, n, fuel - 1);
      } else {
        AtMostOneReflection(g, n, fuel - 1);
        if |p| >= 2 {
          assert !Reflects(p, 0);
        }
      }
      forall i, j | 0 <= i < j < |p| - 1 ensures !(Reflects(p, i) && Reflects(p, j)) {
        ReflectsShift(g, s, fuel, j);
        if i > 0 {
          ReflectsShift(g, s, fuel, i);
        }
      }
    }
  }

  /** The cell ahead is a wall and the bullet flies along an axis, or into
      a corner walled on both sides. */
  predicate Blocked(g: Grid, pos: Vec, dir: Vec)
  {
    IsWall(g, Ahead(pos, dir))
    && (dir.x * dir.y == 0 || (IsWall(g, Vec(pos.x + dir.x, pos.y)) && IsWall(g, Vec(pos.x, pos.y + dir.y))))
  }

  /** A blocked bullet vanishes. */
  lemma BlockedStepVanishes(g: Grid, s: Shot)
    requires Blocked(g, s.pos, s.dir)
    ensures BulletStep(g, s) == Vanish
  {
  }

  /** A blocked step is the last: the bullet vanishes there. */
  lemma {:induction false} BlockedFlightEnds(g: Grid, s: Shot, fuel: nat, i: nat)
    requires i < |FlightFrom(g, s, fuel).path|
    requires Blocked(g, FlightFrom(g, s, fuel).path[i].0, FlightFrom(g, s, fuel).path[i].1)
    ensures i == |FlightFrom(g, s, fuel).path| - 1
    ensures FlightFrom(g, s, fuel).end == Vanished
    decreases fuel
  {
    FlightFirstStep(g, s, fuel);
    if i > 0 {
      var n := BulletStep(g, s).next;
      FlightUnfolds(g, s, fuel);
      assert FlightFrom(g, s, fuel).path[i] == FlightFrom(g, n, fuel - 1).path[i - 1];
      BlockedFlightEnds(g, n, fuel - 1, i - 1);
    } else {
      BlockedStepVanishes(g, s);
    }
  }

  /** Reflection geometry from pair `a` to pair `b`: the step either moves
      along `y` and negates `dx` (case A, or a corner with `dx * dy == -1`),
      or moves along `x` and negates `dy` (case B, or a corner with
      `dx * dy == 1`); in both the cell ahead of `a` was a wall. */
  predicate ReflectionShape(g: Grid, a: (Vec, Vec), b: (Vec, Vec))
  {
    var (x, y, dx, dy) := (a.0.x, a.0.y, a.1.x, a.1.y);
    IsWall(g, Vec(x + dx, y + dy)) && dx * dy != 0
    && ((b == (Vec(x, y + dy), Vec(-dx, dy)) && (IsWall(g, Vec(x + dx, y)) || dx * dy == -1))
        || (b == (Vec(x + dx, y), Vec(dx, -dy)) && (IsWall(g, Vec(x, y + dy)) || dx * dy == 1)))
  }

  /** A single step that is not the straight move has the reflection shape. */
  lemma StepReflectionShape(g: Grid, s: Shot)
    requires BulletStep(g, s).Fly?
    requires (BulletStep(g, s).next.pos, BulletStep(g, s).next.dir) != (Ahead(s.pos, s.dir), s.dir)
    ensures ReflectionShape(g, (s.pos, s.dir), (BulletStep(g, s).next.pos, BulletStep(g, s).next.dir))
  {
  }

  /** Every reflecting step of a flight has the reflection shape. */
  lemma {:induction false} ReflectionGeometry(g: Grid, s: Shot, fuel: nat, i: nat)
    requires i + 1 < |FlightFrom(g, s, fuel).path|
    requires Reflects(FlightFrom(g, s, fuel).path, i)
    ensures ReflectionShape(g, FlightFrom(g, s, fuel).path[i], FlightFrom(g, s, fuel).path[i + 1])
    decreases fuel
  {
    var n := BulletStep(g, s).next;
    FlightUnfolds(g, s, fuel);
    var p, q := FlightFrom(g, s, fuel).path, FlightFrom(g, n, fuel - 1).path;
    if i > 0 {
      assert p[i] == q[i - 1] && p[i + 1] == q[i];
      ReflectionGeometry(g, n, fuel - 1, i - 1);
    } else {
      StepReflectionShape(g, s);
    }
  }

  /** A bullet fired along one of the eight compass directions keeps flying
      along compass directions and never reaches the raising case. */
  lemma {:induction false} CompassFlightNeverRaises(g: Grid, s: Shot, fuel: nat)
    requires IsCompassDir(s.dir)
    ensures FlightFrom(g, s, fuel).end != Raised
    ensures forall i | 0 <= i < |FlightFrom(g, s, fuel).path| :: IsCompassDir(FlightFrom(g, s, fuel).path[i].1)
    decreases fuel
  {
    if fuel > 0 {
      var step := BulletStep(g, s);
      CompassStep(g, s);
      if step.Fly? {
        CompassFlightNeverRaises(g, step.next, fuel - 1);
        FlightUnfolds(g, s, fuel);
        var p, q := FlightFrom(g, s, fuel).path, FlightFrom(g, step.next, fuel - 1).path;
        forall i | 1 <= i < |p| ensures IsCompassDir(p[i].1) {
          assert p[i] == q[i - 1];
        }
      }
    }
  }

  /** One step from a compass direction does not raise and, when the bullet
      flies on, leaves it on a compass direction. */
  lemma CompassStep(g: Grid, s: Shot)
    requires IsCompassDir(s.dir)
    ensures !BulletStep(g, s).Broken?
    ensures BulletStep(g, s).Fly? ==> IsCompassDir(BulletStep(g, s).next.dir)
  {
  }

  /** The first index from `k` on whose cell satisfies `stop`. */
  function FirstStop(path: seq<(Vec, Vec)>, stop: Vec -> bool, k: nat): (r: Option<nat>)
    requires k <= |path|
    ensures r.Some? ==> k <= r.value < |path| && stop(path[r.value].0)
    ensures r.Some? ==> forall i | k <= i < r.value :: !stop(path[i].0)
    ensures r.None? ==> forall i | k <= i < |path| :: !stop(path[i].0)
    decreases |path| - k
  {
    if k == |path| then None
    else if stop(path[k].0) then Some(k)
    else FirstStop(path, stop, k + 1)
  }

  /** Drawing pairs from the enumerator until one after the first satisfies
      `stop`: the prefix up to and including it. Without such a pair the whole
      flight is kept, unless the enumerator raised or the budget ran out. */
  function Truncate(f: Flight, stop: Vec -> bool): (r: Result<seq<(Vec, Vec)>>)
    ensures r.Ok? ==> r.value <= f.path
    ensures r.Ok? && |f.path| > 0 ==> |r.value| > 0
    ensures r.Ok? && |r.value| < |f.path| ==> |r.value| >= 2 && stop(r.value[|r.value| - 1].0)
    ensures r.Ok? ==> forall i | 1 <= i < |r.value| - 1 :: !stop(r.value[i].0)
    ensures r.Err? <==> FirstStop(f.path, stop, if |f.path| == 0 then 0 else 1).None? && f.end != Vanished
  {
    var k := if |f.path| == 0 then 0 else 1;
    match FirstStop(f.path, stop, k)
    case Some(i) => Ok(f.path[..i + 1])
    case None =>
      if f.end == Vanished then Ok(f.path)
      else if f.end == Raised then Err(BadDirection)
      else Err(FuelExhausted)
  }

  /** `normal_bullet_trajectory` stops at a character. */
  predicate NormalStop(s: BoardState, p: Vec)
  {
    |CharactersAt(s.characters, p)| > 0
  }

  /** `mover_bullet_trajectory` also stops at a floor item or the stairs. */
  predicate MoverStop(s: BoardState, p: Vec)
  {
    |CharactersAt(s.characters, p)| > 0 || ItemAt(s, p).Some? || KaidanAt(s, p)
  }

  /** The consumers' loop: push each pair, break after one past the first
      whose cell satisfies `stop`. */
  method TakeUntil(f: Flight, stop: Vec -> bool) returns (r: Result<seq<(Vec, Vec)>>)
    ensures r == Truncate(f, stop)
  {
    var res: seq<(Vec, Vec)> := [];
    var idx := 0;
    while idx < |f.path|
      invariant 0 <= idx <= |f.path|
      invariant res == f.path[..idx]
      invariant idx == |f.path| ==> res == f.path
      invariant FirstStop(f.path, stop, if |f.path| == 0 then 0 else 1)
        == FirstStop(f.path, stop, if idx == 0 then (if |f.path| == 0 then 0 else 1) else idx)
    {
      res := res + [f.path[idx]];
      if idx != 0 && stop(f.path[idx].0) {
        assert FirstStop(f.path, stop, idx) == Some(idx);
        assert res == f.path[..idx + 1];
        return Ok(res);
      }
      idx := idx + 1;
    }
    if f.end == Raised {
      return Err(BadDirection);
    } else if f.end == OutOfFuel {
      return Err(FuelExhausted);
    }
    return Ok(res);
  }

  /** `normal_bullet_trajectory(board, dir)`. */
  method NormalBulletTrajectory(g: Grid, s: BoardState, dir: Vec, fuel: nat) returns (r: Result<seq<(Vec, Vec)>>)
    ensures AsukaOf(s).Err? ==> r == Err(AsukaOf(s).error)
    ensures AsukaOf(s).Ok? ==> r == Truncate(MaxTrajectory(g, s, dir, fuel).value, p => NormalStop(s, p))
  {
    var f := MaxBulletTrajectory(g, s, dir, fuel);
    if f.Err? {
      return Err(f.error);
    }
    r := TakeUntil(f.value, p => NormalStop(s, p));
  }

  /** `mover_bullet_trajectory(board, dir)`. */
  method MoverBulletTrajectory(g: Grid, s: BoardState, dir: Vec, fuel: nat) returns (r: Result<seq<(Vec, Vec)>>)
    ensures AsukaOf(s).Err? ==> r == Err(AsukaOf(s).error)
    ensures AsukaOf(s).Ok? ==> r == Truncate(MaxTrajectory(g, s, dir, fuel).value, p => MoverStop(s, p))
  {
    var f := MaxBulletTrajectory(g, s, dir, fuel);
    if f.Err? {
      return Err(f.error);
    }
    r := TakeUntil(f.value, p => MoverStop(s, p));
  }

  /** The mover path is never longer than the normal one: whatever stops a
      normal bullet stops a mover bullet. */
  lemma MoverStopsNoLater(f: Flight, s: BoardState)
    requires Truncate(f, p => NormalStop(s, p)).Ok? && Truncate(f, p => MoverStop(s, p)).Ok?
    ensures Truncate(f, p => MoverStop(s, p)).value <= Truncate(f, p => NormalStop(s, p)).value
  {
    var k := if |f.path| == 0 then 0 else 1;
    var n := FirstStop(f.path, p => NormalStop(s, p), k);
    var m := FirstStop(f.path, p => MoverStop(s, p), k);
    if n.Some? {
      assert MoverStop(s, f.path[n.value].0);
      assert m.Some? && m.value <= n.value;
    }
  }
}
