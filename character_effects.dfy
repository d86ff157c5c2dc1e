/** `Character#hit_by_projectile` and `Character#fukitobasareru`: what a
    character does when a thrown item reaches it. */
module CharacterEffects {
  import opened Results
  import opened Geometry
  import opened Items
  import opened Characters
  import opened Boards
  import opened Hooks

  /** The board after the reflective character at `ci` turns to face the
      thrower: only that character's facing changes. */
  function TurnedAround(s: BoardState, ci: nat, dir: Vec): (r: BoardState)
    requires ci < |s.characters|
    ensures r.inventory == s.inventory && r.items == s.items && r.kaidan == s.kaidan && r.traps == s.traps
    ensures |r.characters| == |s.characters|
    ensures r.characters[ci].dir == OppositeOf(dir)
    ensures r.characters[ci] == s.characters[ci].(dir := r.characters[ci].dir)
    ensures forall j | 0 <= j < |s.characters| && j != ci :: r.characters[j] == s.characters[j]
  {
    s.(characters := s.characters[ci := s.characters[ci].(dir := OppositeOf(dir))])
  }

  /** `hit_by_projectile` on the character at index `ci`, which `item`
      reached flying along `dir`, thrown by `actor`. */
  function HitByProjectile(g: Grid, s: BoardState, hk: Hooks, ci: nat, item: Item, dir: Vec, actor: Character): (r: Result<BoardState>)
    requires ci < |s.characters|
    // the bounce of the one character `ATTRS` marks reflective: it faces back, the item sits on its cell and
    // is blown the opposite way with the character as actor
    ensures s.characters[ci].name == Ushiwakamaru ==>
      r == hk.blown(g, TurnedAround(s, ci, dir), item.(pos := Some(s.characters[ci].pos)),
                    OppositeOf(dir), TurnedAround(s, ci, dir).characters[ci])
    // any other character changes nothing itself and hands the hit on
    ensures s.characters[ci].name != Ushiwakamaru ==> r == hk.hitEffect(g, s, item, s.characters[ci], dir, actor)
  {
    var c := s.characters[ci];
    if c.name == Ushiwakamaru then
      var s1 := TurnedAround(s, ci, dir);
      hk.blown(g, s1, item.(pos := Some(c.pos)), OppositeOf(dir), s1.characters[ci])
    else
      hk.hitEffect(g, s, item, c, dir, actor)
  }

  /** `fukitobasareru`: a character blown away does not move; the board is
      left as it was. */
  function Fukitobasareru(s: BoardState, dir: Vec, actor: Character): (r: BoardState)
    ensures r == s
  {
    s
  }

  /** The in-place form: the reflective character's facing is assigned on
      the board, then the hook's board is taken over. */
  method HitByProjectileOn(b: Board, hk: Hooks, ci: nat, item: Item, dir: Vec, actor: Character) returns (st: Status)
    requires ci < |b.characters|
    modifies b
    ensures st == Done <==> HitByProjectile(b.grid, old(b.State()), hk, ci, item, dir, actor).Ok?
    ensures st == Done ==> b.State() == HitByProjectile(b.grid, old(b.State()), hk, ci, item, dir, actor).value
  {
    var c := b.characters[ci];
    var r: Result<BoardState>;
    if c.name == Ushiwakamaru {
      b.characters := b.characters[ci := c.(dir := OppositeOf(dir))];
      r := hk.blown(b.grid, b.State(), item.(pos := Some(c.pos)), OppositeOf(dir), b.characters[ci]);
    } else {
      r := hk.hitEffect(b.grid, b.State(), item, c, dir, actor);
    }
    if r.Err? {
      return Failed(r.error);
    }
    b.SetComponents(r.value);
    return Done;
  }
}
