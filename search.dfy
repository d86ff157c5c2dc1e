/** `Program#search`, `#reconstruct_path` and `#iterate` of main.rb: a
    best-first search from an initial position, written over any kind of
    position `S` and move `C`. The `dist` and `prev` hashes are one table of
    visits, indexed in discovery order; the priority queue holds indices
    into it. */
module Search {
  import opened Results

  /** What the search asks of a position. */
  datatype Problem<!S, C> = Problem(
    /** the moves `commands(curr)` lists, each with the position it leads to */
    successors: S -> Result<seq<(C, S)>>,
    solved: S -> Result<bool>,
    unsolvable: S -> Result<bool>,
    score: S -> Result<int>,
    /** the key comparison of the `dist` hash (`eql?`) */
    same: (S, S) -> bool)

  /** A discovered position: its distance from the start and, for all but
      the start, the index of the position it was reached from and the
      move that reached it. */
  datatype Visit<S, C> = Visit(node: S, dist: nat, prev: Option<(nat, C)>)

  /** `c` leads from `a` to `b`. */
  predicate Edge<S(==), C(==)>(p: Problem<S, C>, a: S, c: C, b: S)
  {
    p.successors(a).Ok? && (c, b) in p.successors(a).value
  }

  /** How a hash finds a key: the very same object, or one `same` says
      is equal. */
  predicate Key<S(==), C>(p: Problem<S, C>, n: S, k: S)
  {
    n == k || p.same(n, k)
  }

  /** A step the search takes: `c` leads from `a` to `b`, which is not `a`
      again and is not unsolvable. */
  predicate Step<S(==), C(==)>(p: Problem<S, C>, a: S, c: C, b: S)
  {
    Edge(p, a, c, b) && !p.same(b, a) && p.unsolvable(b) == Ok(false)
  }

  /** `dist[n]`: the index of a visit whose position is the key `n`. */
  function Lookup<S(==), C>(p: Problem<S, C>, table: seq<Visit<S, C>>, n: S): (r: Option<nat>)
    ensures r.None? <==> forall i | 0 <= i < |table| :: !Key(p, n, table[i].node)
    ensures r.Some? ==> r.value < |table| && Key(p, n, table[r.value].node)
  {
    if |table| == 0 then None
    else if Key(p, n, table[|table| - 1].node) then Some(|table| - 1)
    else Lookup(p, table[..|table| - 1], n)
  }

  /** Visit `i` was reached by a move from an earlier visit, is one step
      farther, differs from it and is not unsolvable. */
  predicate Linked<S(==), C(==)>(p: Problem<S, C>, table: seq<Visit<S, C>>, i: nat)
    requires i < |table|
  {
    table[i].prev.Some? && table[i].prev.value.0 < i
    && table[i].dist == table[table[i].prev.value.0].dist + 1
    && Step(p, table[table[i].prev.value.0].node, table[i].prev.value.1, table[i].node)
  }

  /** No position was discovered twice. */
  predicate Distinct<S(==), C>(p: Problem<S, C>, table: seq<Visit<S, C>>)
  {
    forall i, j | 0 <= j < i < |table| :: !Key(p, table[i].node, table[j].node)
  }

  /** The tables as the search keeps them: the start first, at distance 0
      and with no predecessor; every later visit linked to an earlier one;
      no position discovered twice. */
  predicate WellFormed<S(==), C(==)>(p: Problem<S, C>, init: S, table: seq<Visit<S, C>>)
  {
    |table| > 0 && table[0] == Visit(init, 0, None)
    && (forall i | 1 <= i < |table| :: Linked(p, table, i))
    && Distinct(p, table)
  }

  /** What the loop makes of a successor `n` of `cur`: dropped because it
      is `cur` again or unsolvable, or already in the table. */
  predicate Settled<S(==), C(==)>(p: Problem<S, C>, table: seq<Visit<S, C>>, cur: S, n: S)
  {
    p.same(n, cur) || p.unsolvable(n) == Ok(true) || exists i | 0 <= i < |table| :: Key(p, n, table[i].node)
  }

  /** Visit `i` was popped: it is not solved and each of its successors is
      settled. */
  predicate Expanded<S(==), C(==)>(p: Problem<S, C>, table: seq<Visit<S, C>>, i: nat)
    requires i < |table|
  {
    p.solved(table[i].node) == Ok(false) && p.successors(table[i].node).Ok?
    && forall e | e in p.successors(table[i].node).value :: Settled(p, table, table[i].node, e.1)
  }

  /** `queue.pop`: the queued visit with the lowest score (the first such
      in queue order). A score that cannot be computed raises. */
  method PopMin<S, C>(p: Problem<S, C>, table: seq<Visit<S, C>>, queue: seq<nat>) returns (r: Result<nat>)
    requires |queue| > 0 && forall k | 0 <= k < |queue| :: queue[k] < |table|
    ensures r.Ok? ==> r.value < |queue|
    ensures r.Ok? ==> p.score(table[queue[r.value]].node).Ok?
    ensures r.Ok? ==> forall k | 0 <= k < |queue| ::
      (p.score(table[queue[k]].node).Ok?
       && p.score(table[queue[r.value]].node).value <= p.score(table[queue[k]].node).value)
  {
    var best := 0;
    var bestScore := p.score(table[queue[0]].node);
    if bestScore.Err? {
      return Err(bestScore.error);
    }
    var k := 1;
    while k < |queue|
      invariant 1 <= k <= |queue| && best < k
      invariant bestScore == p.score(table[queue[best]].node) && bestScore.Ok?
      invariant forall m | 0 <= m < k ::
        (p.score(table[queue[m]].node).Ok? && bestScore.value <= p.score(table[queue[m]].node).value)
    {
      var sc := p.score(table[queue[k]].node);
      if sc.Err? {
        return Err(sc.error);
      }
      if sc.value < bestScore.value {
        best, bestScore := k, sc;
      }
      k := k + 1;
    }
    return Ok(best);
  }

  /** How a search ends: at a solved position (its index in the table),
      with the queue emptied (`raise "solution not found"`), or with an
      exception from one of the problem's functions or the fuel bound. */
  datatype Outcome = Found(goal: nat) | NotFound | Raised(error: Error)

  /** Recording a new position reached from visit `c` keeps the tables
      well formed. */
  lemma RecordKeepsWellFormed<S, C>(p: Problem<S, C>, init: S, table: seq<Visit<S, C>>, c: nat, cmd: C, n: S)
    requires WellFormed(p, init, table) && c < |table|
    requires Step(p, table[c].node, cmd, n)
    requires forall i | 0 <= i < |table| :: !Key(p, n, table[i].node)
    ensures WellFormed(p, init, table + [Visit(n, table[c].dist + 1, Some((c, cmd)))])
  {
    var t := table + [Visit(n, table[c].dist + 1, Some((c, cmd)))];
    forall i | 1 <= i < |t| ensures Linked(p, t, i) {
      if i < |table| {
        assert Linked(p, table, i);
        assert t[i] == table[i] && t[table[i].prev.value.0] == table[table[i].prev.value.0];
      } else {
        assert t[c] == table[c];
      }
    }
    forall i, j | 0 <= j < i < |t| ensures !Key(p, t[i].node, t[j].node) {
      assert t[j] == table[j];
      if i < |table| {
        assert t[i] == table[i];
      }
    }
  }

  /** Extending a table keeps every settled successor settled. */
  lemma SettledExtends<S, C>(p: Problem<S, C>, table: seq<Visit<S, C>>, table': seq<Visit<S, C>>, cur: S, n: S)
    requires table <= table'
    requires Settled(p, table, cur, n)
    ensures Settled(p, table', cur, n)
  {
    if !p.same(n, cur) && p.unsolvable(n) != Ok(true) {
      var i :| 0 <= i < |table| && Key(p, n, table[i].node);
      assert table'[i] == table[i];
    }
  }

  /** Extending a table keeps every expanded visit expanded. */
  lemma ExpandedExtends<S, C>(p: Problem<S, C>, table: seq<Visit<S, C>>, table': seq<Visit<S, C>>, i: nat)
    requires table <= table' && i < |table|
    requires Expanded(p, table, i)
    ensures Expanded(p, table', i)
  {
    assert table'[i] == table[i];
    forall e | e in p.successors(table[i].node).value ensures Settled(p, table', table[i].node, e.1) {
      SettledExtends(p, table, table', table[i].node, e.1);
    }
  }

  /** The inner loop of `search`: for each successor of visit `cur`, drop
      it when it is `cur` again or unsolvable, and otherwise record and
      queue it unless it was discovered before. */
  method Discover<S(==), C(==)>(p: Problem<S, C>, init: S, table: seq<Visit<S, C>>, queue: seq<nat>, cur: nat, succ: seq<(C, S)>)
    returns (err: Option<Error>, table': seq<Visit<S, C>>, queue': seq<nat>)
    requires WellFormed(p, init, table) && cur < |table|
    requires p.successors(table[cur].node) == Ok(succ)
    requires forall k | 0 <= k < |queue| :: queue[k] < |table|
    ensures WellFormed(p, init, table') && table <= table'
    ensures forall k | 0 <= k < |queue'| :: queue'[k] < |table'|
    ensures forall i | 0 <= i < |table'| :: (i in queue ==> i in queue') && (i >= |table| ==> i in queue')
    ensures err.None? ==> forall m | 0 <= m < |succ| :: Settled(p, table', table[cur].node, succ[m].1)
  {
    table', queue' := table, queue;
    var curNode := table[cur].node;
    var j := 0;
    while j < |succ|
      invariant 0 <= j <= |succ|
      invariant WellFormed(p, init, table') && table <= table'
      invariant forall k | 0 <= k < |queue'| :: queue'[k] < |table'|
      invariant forall i | 0 <= i < |table'| :: (i in queue ==> i in queue') && (i >= |table| ==> i in queue')
      invariant forall m | 0 <= m < j :: Settled(p, table', curNode, succ[m].1)
    {
      var e := succ[j];
      var u := p.unsolvable(e.1);
      if !p.same(e.1, curNode) && u.Err? {
        return Some(u.error), table', queue';
      }
      if !p.same(e.1, curNode) && !u.value && Lookup(p, table', e.1).None? {
        var v := Visit(e.1, table'[cur].dist + 1, Some((cur, e.0)));
        assert table'[cur] == table[cur];
        assert Edge(p, curNode, e.0, e.1) by { assert succ[j] in succ; }
        RecordKeepsWellFormed(p, init, table', cur, e.0, e.1);
        forall m | 0 <= m < j ensures Settled(p, table' + [v], curNode, succ[m].1) {
          SettledExtends(p, table', table' + [v], curNode, succ[m].1);
        }
        assert (table' + [v])[|table'|].node == e.1;
        table' := table' + [v];
        queue' := queue' + [|table'| - 1];
        assert table'[|table'| - 1].node == e.1;
      } else if !p.same(e.1, curNode) && !u.value {
        var w := Lookup(p, table', e.1).value;
      }
      j := j + 1;
    }
    return None, table', queue';
  }

  /** `search(init)`: pop the best queued position; stop when it is solved;
      otherwise execute every command on it and queue each new position
      that is not the position itself, not unsolvable and not discovered
      before, recording its distance and predecessor. `fuel` bounds the
      number of positions popped. */
  method Search<S(==), C(==)>(p: Problem<S, C>, init: S, fuel: nat) returns (r: Outcome, table: seq<Visit<S, C>>)
    ensures WellFormed(p, init, table)
    // the position returned is solved
    ensures r.Found? ==> r.goal < |table| && p.solved(table[r.goal].node) == Ok(true)
    // an emptied queue means every discovered position was expanded
    ensures r.NotFound? ==> forall i | 0 <= i < |table| :: Expanded(p, table, i)
  {
    table := [Visit(init, 0, None)];
    var queue: seq<nat> := [0];
    var steps := 0;
    while |queue| > 0
      invariant WellFormed(p, init, table)
      invariant forall k | 0 <= k < |queue| :: queue[k] < |table|
      invariant forall i | 0 <= i < |table| :: i in queue || Expanded(p, table, i)
      invariant steps <= fuel
      decreases fuel - steps
    {
      if steps == fuel {
        return Raised(FuelExhausted), table;
      }
      steps := steps + 1;
      var k := PopMin(p, table, queue);
      if k.Err? {
        return Raised(k.error), table;
      }
      var cur := queue[k.value];
      var rest := queue[..k.value] + queue[k.value + 1..];
      assert forall i | i in queue && i != cur :: i in rest;
      var sol := p.solved(table[cur].node);
      if sol.Err? {
        return Raised(sol.error), table;
      }
      if sol.value {
        return Found(cur), table;
      }
      var succ := p.successors(table[cur].node);
      if succ.Err? {
        return Raised(succ.error), table;
      }
      var err, table', queue' := Discover(p, init, table, rest, cur, succ.value);
      if err.Some? {
        return Raised(err.value), table';
      }
      forall i | 0 <= i < |table'| && i !in queue' ensures Expanded(p, table', i) {
        if i == cur {
          assert table'[i] == table[i];
          forall e | e in succ.value ensures Settled(p, table', table[cur].node, e.1) {
            var m :| 0 <= m < |succ.value| && succ.value[m] == e;
          }
        } else {
          ExpandedExtends(p, table, table', i);
        }
      }
      table, queue := table', queue';
    }
    return NotFound, table;
  }

  /** The sequence backwards. */
  function Reverse<T>(s: seq<T>): (r: seq<T>)
    ensures |r| == |s| && forall k | 0 <= k < |s| :: r[k] == s[|s| - 1 - k]
  {
    if |s| == 0 then [] else [s[|s| - 1]] + Reverse(s[..|s| - 1])
  }

  /** `reconstruct_path(prevs, init, goal)`: follow the predecessors from
      the goal (`iterate`) until the start, then reverse. The result runs
      from the start to the goal, each position paired with the move taken
      from it, the goal with none; it is one longer than the goal's
      distance. */
  method ReconstructPath<S(==), C(==)>(p: Problem<S, C>, init: S, table: seq<Visit<S, C>>, goal: nat) returns (path: seq<(S, Option<C>)>)
    requires WellFormed(p, init, table) && goal < |table|
    requires p.same(init, init)
    ensures |path| == table[goal].dist + 1
    ensures path[0].0 == init
    ensures path[|path| - 1] == (table[goal].node, None)
    ensures forall k | 0 <= k < |path| - 1 :: path[k].1.Some? && Step(p, path[k].0, path[k].1.value, path[k + 1].0)
  {
    var res: seq<(S, Option<C>)> := [(table[goal].node, None)];
    var i := goal;
    while !p.same(table[i].node, init)
      invariant i < |table| && |res| > 0
      invariant res[0] == (table[goal].node, None)
      invariant res[|res| - 1].0 == table[i].node
      invariant |res| + table[i].dist == table[goal].dist + 1
      invariant forall k | 1 <= k < |res| :: res[k].1.Some? && Step(p, res[k].0, res[k].1.value, res[k - 1].0)
      decreases i
    {
      assert i != 0 && Linked(p, table, i);
      var (j, c) := table[i].prev.value;
      res := res + [(table[j].node, Some(c))];
      i := j;
    }
    assert i == 0;
    path := Reverse(res);
    forall k | 0 <= k < |path| - 1 ensures path[k].1.Some? && Step(p, path[k].0, path[k].1.value, path[k + 1].0) {
      var m := |res| - 2 - k;
      assert path[k] == res[m + 1] && path[k + 1] == res[m];
    }
  }
}
