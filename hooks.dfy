/** The collaborators the solver calls but whose code is not part of this
    model: `magic_bullet_trajectory` (the pull wand's bullet),
    `Item#execute_bashogae` (the swap wand), `Item#hit_effect` and
    `Item#fukitobasareru`. Each is a parameter: a function of the terrain and
    the position it is given. None of them can change the terrain. */
module Hooks {
  import opened Results
  import opened Geometry
  import opened Items
  import opened Characters
  import opened Boards

  datatype Hooks = Hooks(
    /** `magic_bullet_trajectory(board, dir).to_a`. */
    bullet: (Grid, BoardState, Vec) -> seq<(Vec, Vec)>,
    /** `item.execute_bashogae(board, actor)`. */
    bashogae: (Grid, BoardState, Item, Character) -> Result<BoardState>,
    /** `item.hit_effect(board, target, dir, actor)`. */
    hitEffect: (Grid, BoardState, Item, Character, Vec, Character) -> Result<BoardState>,
    /** `item.fukitobasareru(board, dir, actor)`. */
    blown: (Grid, BoardState, Item, Vec, Character) -> Result<BoardState>)
}
