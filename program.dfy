/** `Program#commands`, and the search of main.rb instantiated with boards:
    the moves a position offers, the positions they lead to, and the whole
    solve from an initial board to a path that reaches the stairs. */
module Program {
  import opened Results
  import opened Geometry
  import opened Items
  import opened Characters
  import opened Boards
  import opened Hooks
  import opened Commands
  import opened Search

  // ------------------------------------------------------------- commands

  /** The four axis directions `commands` offers moves in, in its order. */
  const MoveDirs: seq<Vec> := [Vec(0, -1), Vec(1, 0), Vec(0, 1), Vec(-1, 0)]

  /** A move in each direction, first picking up, then not. */
  function MoveCommands(ds: seq<Vec>): (r: seq<Command>)
    ensures |r| == 2 * |ds|
    ensures forall c :: c in r <==> c.Move? && c.dir in ds
  {
    if |ds| == 0 then [] else [Move(ds[0], true), Move(ds[0], false)] + MoveCommands(ds[1..])
  }

  /** A throw and a use of each inventory item in direction `d`. */
  function ItemCommandsIn(d: Vec, inv: seq<Item>): (r: seq<Command>)
    ensures |r| == 2 * |inv|
    ensures forall c :: c in r <==> (c.Throw? || c.Use?) && c.dir == d && c.item in inv
  {
    if |inv| == 0 then [] else [Throw(d, inv[0]), Use(d, inv[0])] + ItemCommandsIn(d, inv[1..])
  }

  /** `ItemCommandsIn` for every direction of `ds`, direction by direction. */
  function ItemCommands(ds: seq<Vec>, inv: seq<Item>): (r: seq<Command>)
    ensures forall c :: c in r <==> (c.Throw? || c.Use?) && c.dir in ds && c.item in inv
  {
    if |ds| == 0 then [] else ItemCommandsIn(ds[0], inv) + ItemCommands(ds[1..], inv)
  }

  /** Every direction offers the same number of item commands. */
  lemma {:induction false} ItemCommandsCount(ds: seq<Vec>, inv: seq<Item>)
    ensures |ItemCommands(ds, inv)| == |ds| * (2 * |inv|)
  {
    if |ds| > 0 {
      ItemCommandsCount(ds[1..], inv);
      calc {
        |ItemCommands(ds, inv)|;
        2 * |inv| + |ItemCommands(ds[1..], inv)|;
        2 * |inv| + (|ds| - 1) * (2 * |inv|);
        { assert (|ds| - 1) * (2 * |inv|) == |ds| * (2 * |inv|) - 2 * |inv|; }
        |ds| * (2 * |inv|);
      }
    }
  }

  /** The items `commands` offers to drop: all but the pull wands. */
  function Droppable(inv: seq<Item>): (r: seq<Item>)
    ensures forall it :: it in r <==> it in inv && it.name != WandHikiyose
    ensures |r| <= |inv|
  {
    if |inv| == 0 then []
    else if inv[0].name == WandHikiyose then Droppable(inv[1..])
    else [inv[0]] + Droppable(inv[1..])
  }

  /** A drop of each droppable inventory item. */
  function DropCommands(inv: seq<Item>): (r: seq<Command>)
    ensures |r| == |Droppable(inv)|
    ensures forall c :: c in r <==> c.Drop? && c.item in inv && c.item.name != WandHikiyose
  {
    if |inv| == 0 then []
    else if inv[0].name == WandHikiyose then DropCommands(inv[1..])
    else [Drop(inv[0])] + DropCommands(inv[1..])
  }

  /** The guard on moves in `commands`: a pull wand lies on the protagonist's
      cell. Evaluating it raises when there are floor items but no
      protagonist. */
  function WandUnderfoot(s: BoardState): (r: Result<bool>)
    ensures r.Err? <==> |s.items| > 0 && AsukaOf(s).Err?
    ensures r.Ok? && |s.items| > 0 ==> (r.value <==>
      exists it | it in s.items :: it.pos == Some(AsukaOf(s).value.pos) && it.name == WandHikiyose)
    ensures |s.items| == 0 ==> r == Ok(false)
  {
    if |s.items| == 0 then Ok(false)
    else match AsukaOf(s)
      case Err(e) => Err(e)
      case Ok(a) => Ok(exists it | it in s.items :: it.pos == Some(a.pos) && it.name == WandHikiyose)
  }

  /** `commands(board)` as written: the guard is evaluated (it looks the
      protagonist up when there are floor items, and never holds), so the
      moves are always built, and the first `Command.new(:move, d, true)`
      passes arguments to a constructor that takes none: ArgumentError on
      every board. The drops, whose class has no `legal?`, are never
      reached. */
  function CommandsAsWritten(s: BoardState): (r: Result<seq<Command>>)
    ensures r.Err?
    ensures r.error != ArgumentError <==> WandUnderfoot(s).Err?
  {
    match WandUnderfoot(s)
    case Err(e) => Err(e)
    case Ok(_) => Err(ArgumentError)
  }

  /** `commands(board)` as intended, each command built by `Command.create`:
      the axis moves unless a pull wand lies underfoot, then a throw and a
      use of each inventory item in each of the eight directions, then a
      drop of each item but the pull wands. The final `legal?` selection
      keeps them all: `Command#legal?` accepts every command, and a drop is
      taken to do the same. */
  function CommandsFor(s: BoardState): (r: Result<seq<Command>>)
    ensures r.Err? <==> WandUnderfoot(s).Err?
    ensures r.Ok? ==> forall c :: c in r.value <==>
      (c.Move? && c.dir in MoveDirs && !WandUnderfoot(s).value)
      || ((c.Throw? || c.Use?) && c.dir in Dirs && c.item in s.inventory)
      || (c.Drop? && c.item in s.inventory && c.item.name != WandHikiyose)
    ensures r.Ok? ==> !(Pick in r.value)
  {
    match WandUnderfoot(s)
    case Err(e) => Err(e)
    case Ok(under) =>
      Ok((if under then [] else MoveCommands(MoveDirs)) + ItemCommands(Dirs, s.inventory) + DropCommands(s.inventory))
  }

  /** Wherever the intended `commands` yields a list, the one as written
      raises ArgumentError instead; elsewhere both raise the same error. */
  lemma CommandsAsWrittenAlwaysRaises(s: BoardState)
    ensures CommandsFor(s).Ok? <==> CommandsAsWritten(s) == Err(ArgumentError)
    ensures CommandsFor(s).Err? ==> CommandsAsWritten(s) == CommandsFor(s)
  {
  }

  /** How many commands a position offers: 8 moves unless a pull wand lies
      underfoot, 16 per inventory item, and one per droppable item. */
  lemma CommandsCount(s: BoardState)
    requires CommandsFor(s).Ok?
    ensures |CommandsFor(s).value|
      == (if WandUnderfoot(s).value then 0 else 8) + 16 * |s.inventory| + |Droppable(s.inventory)|
  {
    var under := WandUnderfoot(s).value;
    var moves := if under then [] else MoveCommands(MoveDirs);
    var items := ItemCommands(Dirs, s.inventory);
    var drops := DropCommands(s.inventory);
    assert CommandsFor(s) == Ok(moves + items + drops);
    assert |moves| == (if under then 0 else 8);
    ItemCommandsCount(Dirs, s.inventory);
    assert |Dirs| == 8;
    assert |items| == 16 * |s.inventory|;
  }

  // ----------------------------------------------------------- successors

  /** `exec` applied to each of `cmds` in order, each command paired with
      its outcome; the first command that raises makes the whole list
      raise. */
  function Outcomes<C, S>(exec: C -> Result<S>, cmds: seq<C>): (r: Result<seq<(C, S)>>)
    ensures r.Ok? <==> forall k | 0 <= k < |cmds| :: exec(cmds[k]).Ok?
    ensures r.Ok? ==> |r.value| == |cmds|
    ensures r.Ok? ==> forall k | 0 <= k < |cmds| :: r.value[k] == (cmds[k], exec(cmds[k]).value)
  {
    if |cmds| == 0 then Ok([])
    else
      match Outcomes(exec, cmds[..|cmds| - 1])
      case Err(e) => Err(e)
      case Ok(prefix) =>
        match exec(cmds[|cmds| - 1])
        case Err(e) => Err(e)
        case Ok(t) => Ok(prefix + [(cmds[|cmds| - 1], t)])
  }

  /** One more command: its outcome is appended, or its exception raised. */
  lemma OutcomesExtend<C, S>(exec: C -> Result<S>, cmds: seq<C>, k: nat)
    requires k < |cmds| && Outcomes(exec, cmds[..k]).Ok?
    ensures exec(cmds[k]).Ok? ==>
      Outcomes(exec, cmds[..k + 1]) == Ok(Outcomes(exec, cmds[..k]).value + [(cmds[k], exec(cmds[k]).value)])
    ensures exec(cmds[k]).Err? ==> Outcomes(exec, cmds).Err?
  {
    assert cmds[..k + 1][..k] == cmds[..k];
    if exec(cmds[k]).Err? {
      assert !(forall j | 0 <= j < |cmds| :: exec(cmds[j]).Ok?);
    }
  }

  /** `cmd.execute` on the board `s`, as a function of the command. */
  function Executor(g: Grid, hk: Hooks, s: BoardState): Command -> Result<BoardState>
  {
    c => Execute(g, s, hk, c)
  }

  /** The positions one command away from `s`, each with its command. */
  function Successors(g: Grid, hk: Hooks, s: BoardState): (r: Result<seq<(Command, BoardState)>>)
    ensures r.Ok? ==> CommandsFor(s).Ok? && |r.value| == |CommandsFor(s).value|
  {
    match CommandsFor(s)
    case Err(e) => Err(e)
    case Ok(cmds) => Outcomes(Executor(g, hk, s), cmds)
  }

  /** Successor `k` is command `k` of `commands` with the board it leaves;
      there are successors exactly when every command executes. */
  lemma SuccessorIsExecution(g: Grid, hk: Hooks, s: BoardState, k: nat)
    requires CommandsFor(s).Ok? && k < |CommandsFor(s).value|
    ensures Successors(g, hk, s).Ok? ==>
      (Execute(g, s, hk, CommandsFor(s).value[k]).Ok?
       && Successors(g, hk, s).value[k] == (CommandsFor(s).value[k], Execute(g, s, hk, CommandsFor(s).value[k]).value))
    ensures Execute(g, s, hk, CommandsFor(s).value[k]).Err? ==> Successors(g, hk, s).Err?
  {
    var cmds := CommandsFor(s).value;
    assert Executor(g, hk, s)(cmds[k]) == Execute(g, s, hk, cmds[k]);
  }

  /** `cmd.execute(board.deep_copy)`: the board a command leaves, computed
      in place on a copy, so that `b` itself stays as it was. */
  method ExecuteOnCopy(b: Board, hk: Hooks, cmd: Command) returns (r: Result<BoardState>)
    ensures r.Ok? <==> Execute(b.grid, b.State(), hk, cmd).Ok?
    ensures r.Ok? ==> r.value == Execute(b.grid, b.State(), hk, cmd).value
  {
    var copy := b.DeepCopy();
    var st := ExecuteOn(copy, hk, cmd);
    if st.Failed? {
      return Err(st.error);
    }
    return Ok(copy.State());
  }

  /** The successors of a board, computed the way the search loop is meant
      to: each command executed in place on a deep copy of the board, which
      itself stays as it was. */
  method SuccessorsOf(b: Board, hk: Hooks) returns (r: Result<seq<(Command, BoardState)>>)
    ensures r.Ok? <==> Successors(b.grid, hk, b.State()).Ok?
    ensures r.Ok? ==> r.value == Successors(b.grid, hk, b.State()).value
  {
    var cmds := CommandsFor(b.State());
    if cmds.Err? {
      return Err(cmds.error);
    }
    var out: seq<(Command, BoardState)> := [];
    var k := 0;
    while k < |cmds.value|
      invariant 0 <= k <= |cmds.value|
      invariant Outcomes(Executor(b.grid, hk, b.State()), cmds.value[..k]) == Ok(out)
    {
      var t := ExecuteOnCopy(b, hk, cmds.value[k]);
      assert Executor(b.grid, hk, b.State())(cmds.value[k]) == Execute(b.grid, b.State(), hk, cmds.value[k]);
      OutcomesExtend(Executor(b.grid, hk, b.State()), cmds.value, k);
      if t.Err? {
        return Err(t.error);
      }
      out := out + [(cmds.value[k], t.value)];
      k := k + 1;
    }
    assert cmds.value[..k] == cmds.value;
    return Ok(out);
  }

  // --------------------------------------------------------------- search

  /** The search problem of a floor: the commands and their outcomes,
      `solved?`, `unsolvable?`, `score`, and `eql?` as the key comparison. */
  function BoardProblem(g: Grid, hk: Hooks, h: Hasher): Problem<BoardState, Command>
  {
    Problem(s => Successors(g, hk, s), Solved, Unsolvable, Score, (s, t) => Eql(h, s, t))
  }

  /** An edge of the board problem is a command `commands` offers, executed. */
  lemma EdgeIsCommand(g: Grid, hk: Hooks, h: Hasher, s: BoardState, c: Command, t: BoardState)
    requires Edge(BoardProblem(g, hk, h), s, c, t)
    ensures CommandsFor(s).Ok? && c in CommandsFor(s).value
    ensures Execute(g, s, hk, c) == Ok(t)
  {
    var succ := Successors(g, hk, s).value;
    var k :| 0 <= k < |succ| && succ[k] == (c, t);
    SuccessorIsExecution(g, hk, s, k);
  }

  /** `run` without the printing: search from `init`, then reconstruct the
      path. The path starts at `init`, ends at a solved board with no
      command, and each board on it is the previous one with its command
      executed, a command the previous board offers, leading to a board that
      is not unsolvable and not `eql?` to the previous one. */
  method Solve(g: Grid, hk: Hooks, h: Hasher, init: BoardState, fuel: nat) returns (r: Result<seq<(BoardState, Option<Command>)>>)
    ensures r.Ok? ==> |r.value| > 0 && r.value[0].0 == init
    ensures r.Ok? ==> r.value[|r.value| - 1].1 == None && Solved(r.value[|r.value| - 1].0) == Ok(true)
    ensures r.Ok? ==> forall k | 0 <= k < |r.value| - 1 ::
      (r.value[k].1.Some? && CommandsFor(r.value[k].0).Ok? && r.value[k].1.value in CommandsFor(r.value[k].0).value
       && Execute(g, r.value[k].0, hk, r.value[k].1.value) == Ok(r.value[k + 1].0)
       && !Eql(h, r.value[k + 1].0, r.value[k].0))
    ensures r.Ok? ==> forall k | 1 <= k < |r.value| :: Unsolvable(r.value[k].0) == Ok(false)
  {
    var p := BoardProblem(g, hk, h);
    var outcome, table := Search.Search(p, init, fuel);
    match outcome
    case Raised(e) => return Err(e);
    case NotFound => return Err(SolutionNotFound);
    case Found(goal) =>
      EqlIsEquivalence(h, init, init, init);
      var path := ReconstructPath(p, init, table, goal);
      forall k | 0 <= k < |path| - 1
        ensures path[k].1.Some? && CommandsFor(path[k].0).Ok? && path[k].1.value in CommandsFor(path[k].0).value
        ensures Execute(g, path[k].0, hk, path[k].1.value) == Ok(path[k + 1].0)
        ensures !Eql(h, path[k + 1].0, path[k].0)
      {
        EdgeIsCommand(g, hk, h, path[k].0, path[k].1.value, path[k + 1].0);
      }
      forall k | 1 <= k < |path|
        ensures Unsolvable(path[k].0) == Ok(false)
      {
        assert Step(p, path[k - 1].0, path[k - 1].1.value, path[k].0);
      }
      return Ok(path);
  }
}
