/** The pit trap of trap.rb: the record, and the two hooks that fire it. */
module Traps {
  import opened Results
  import opened Geometry

  datatype Trap = Trap(name: string, pos: Vec)

  /** The only trap the solver implements. */
  const PitTrap: string := "落とし穴"

  /** `Trap.new`: only the pit trap can be made; any other name raises. */
  function New(name: string, pos: Vec): (r: Result<Trap>)
    ensures r.Ok? <==> name == PitTrap
    ensures r.Ok? ==> r.value == Trap(PitTrap, pos)
    ensures r.Err? ==> r.error == UnknownTrap
  {
    if name == PitTrap then Ok(Trap(name, pos)) else Err(UnknownTrap)
  }
}

/** `Trap#land` and `Trap#step`, which change the board they are given. */
module TrapHooks {
  import opened Bags
  import opened Characters
  import opened Traps
  import opened Boards

  /** `land`: an item falls into the pit; one occurrence of the trap leaves
      `board.traps` and nothing else changes. (The item has already left the
      board.) */
  function Land(s: BoardState, trap: Trap): (r: BoardState)
    ensures r == s.(traps := r.traps)
    ensures multiset(r.traps) == multiset(s.traps) - multiset{trap}
  {
    s.(traps := DeleteFirst(s.traps, trap))
  }

  /** `step`: the character at `index` steps on the pit; its hit points drop
      to 0 and one occurrence of the trap leaves `board.traps`. */
  function Step(s: BoardState, trap: Trap, index: nat): (r: BoardState)
    requires index < |s.characters|
    ensures r.inventory == s.inventory && r.items == s.items && r.kaidan == s.kaidan
    ensures |r.characters| == |s.characters|
    ensures Dead(r.characters[index])
    ensures r.characters[index] == s.characters[index].(hp := 0)
    ensures forall j | 0 <= j < |s.characters| && j != index :: r.characters[j] == s.characters[j]
    ensures multiset(r.traps) == multiset(s.traps) - multiset{trap}
  {
    var c := s.characters[index];
    s.(characters := s.characters[index := c.(hp := 0)], traps := DeleteFirst(s.traps, trap))
  }

  /** `land` in place: `board.traps.delete(self)`. */
  method LandOn(b: Board, trap: Trap)
    modifies b
    ensures b.State() == Land(old(b.State()), trap)
  {
    b.traps := DeleteFirst(b.traps, trap);
  }

  /** `step` in place: `character.hp = 0`, then `board.traps.delete(self)`. */
  method StepOn(b: Board, trap: Trap, index: nat)
    requires index < |b.characters|
    modifies b
    ensures b.State() == Step(old(b.State()), trap, index)
  {
    var c := b.characters[index];
    b.characters := b.characters[index := c.(hp := 0)];
    b.traps := DeleteFirst(b.traps, trap);
  }

  /** A pit present once on the board is gone after either hook, so it cannot
      fire twice. */
  lemma PitFiresOnce(s: BoardState, trap: Trap, index: nat)
    requires index < |s.characters|
    requires multiset(s.traps)[trap] == 1
    ensures trap !in Land(s, trap).traps
    ensures trap !in Step(s, trap, index).traps
    ensures |Land(s, trap).traps| == |s.traps| - 1
  {
    assert multiset(Land(s, trap).traps)[trap] == 0;
    assert multiset(Step(s, trap, index).traps)[trap] == 0;
  }
}
