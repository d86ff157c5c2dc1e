# yokuaru in Dafny

A model of the core of yokuaru, a solver for floor puzzles from the
Shiren roguelike. Such a puzzle asks for a move sequence that brings the
protagonist (アスカ) to the stairs. The solver:

- decodes a floor from a Fei level book;
- builds a `Board`: a grid of cells, plus the inventory, floor items,
  characters, stairs and traps, each collection a `Bag`;
- searches the boards best-first. The successors of a board are the
  commands it offers: move (with or without picking up), throw, drop, use;
- reconstructs the command path that reaches the stairs.

The model follows the Ruby sources file by file:

- `common.dfy` (`Results`): the exceptions the solver raises, and Ruby array indexing.
- `bag.dfy` (`Bags`): `bag.rb`, a class over a sequence, plus `DeleteFirst` and `Difference` on sequences.
- `geometry.dfy` (`Geometry`): `Map`, `Vec`, `positions` and `generate_item_drop_sequence` from `main.rb`.
- `character.dfy`, `item.dfy`, `trap.dfy`, `ordering.dfy` (`Characters`, `Items`, `Traps`, `Ordering`): the entity records and their `<=>`.
- `board.dfy` (`Boards`): `board.rb`, as a value `BoardState` and a class `Board`.
- `character_effects.dfy`, `trap.dfy` (`CharacterEffects`, `TrapHooks`): `hit_by_projectile`, `fukitobasareru`, `land` and `step`.
- `hooks.dfy` (`Hooks`): the collaborators whose code is not part of this model.
- `item_effects.dfy` (`ItemEffects`): `item.rb`, that is `use` and the pull wand (引き寄せの杖).
- `command.dfy` (`Commands`): `command.rb`.
- `trajectory.dfy` (`Trajectories`): the bullet trajectories of `main.rb`.
- `search.dfy`, `program.dfy` (`Search`, `Program`): `Program#commands`, `#search` and `#reconstruct_path`.
- `fei.dfy`, `board_builder.dfy` (`Fei`, `BoardBuilder`): floor decoding and the floor-to-board conversion.

The model has two layers:

- **Value layer.** Every board operation is a function on `BoardState`, a
  value holding the five components.
- **In-place layer.** The Ruby methods that change a board in place are
  methods on the `Board` class. Each is proved to leave
  `State()` equal to the function applied to the old state. An error
  (`Err`/`Failed`) stands for a Ruby `raise`.

Loops in the source are `while` loops proved against a recursive
specification function: Bag equality and hashing, the trajectories, the
pull slide, the Fei record readers, the successor list and the search.

Where the Ruby code raises or misbehaves on every input it reaches, the
model keeps an as-written version next to the intended one (see
"## Findings"). `Board#item_drop` tests the trap at the origin cell, not
at the candidate cell (`board.rb:243`). The model keeps this as written;
`Boards.ItemDropFromWithTrapAtOrigin` states what follows from it.

## Model

| member | source | states |
|---|---|---|
| Results.RubyIndex | board_builder.rb:42 | Ruby `ary[i]`: an index in range picks that element; a negative one `i` in range picks element `len + i`; beyond either end gives nil |
| Bags.IndexOf | bag.rb:33 | `find_index`: nil exactly when the element is absent, otherwise the first position holding it |
| Bags.DeleteFirst | bag.rb:32-36 | removes one occurrence (multiset minus one), shrinks by one when present, is a no-op when absent |
| Bags.DeleteFirstRemovesFirstMatch | bag.rb:32-36 | only the first equal element goes; the rest keep their order |
| Bags.Difference | bag.rb:59-66 | the result is the multiset difference of the two sequences |
| Bags.BagEqIsMultisetEq | bag.rb:46-52 | the element-by-element deletion test of `eql?` holds exactly when both hold the same multiset |
| Bags.XorIsRightCommutative | bag.rb:42-44 | XOR can absorb elements in any order, which is what makes `hash` order-free |
| Bags.FoldPermutation | bag.rb:42-44 | a fold with a right-commutative step gives the same value on any permutation |
| Bags.XorFoldPermutation | bag.rb:42-44 | the XOR of element hashes is the same for any two sequences with the same multiset |
| Bags.FindEql | bag.rb:54-57 | finds an element equal to the argument exactly when one is present |
| Bags.Bag.constructor | bag.rb:10-12 | `Bag.new(ary)` holds the given elements in order |
| Bags.Bag.Copy | bag.rb:14-16 | `dup`/`clone` holds the original's elements |
| Bags.Bag.Add | bag.rb:22-26 | appends one element, grows the multiset by it, and returns the same bag |
| Bags.Bag.Delete | bag.rb:32-36 | removes the first equal element; the contents lose one occurrence |
| Bags.Bag.Minus | bag.rb:59-66 | a fresh bag with the multiset difference; the receiver is untouched |
| Bags.Bag.Plus | bag.rb:68-71 | appends the other bag's elements in place; sizes and multisets add; the other bag is unchanged |
| Bags.Bag.Equals | bag.rb:46-52 | true exactly when both bags hold the same multiset |
| Bags.Bag.Hash | bag.rb:42-44 | the XOR of element hashes, equal for every reordering of the contents |
| Bags.Bag.Find | bag.rb:54-57 | `bag[x]`: an element equal to `x` exactly when `x` is in the bag |
| Bags.Bag.Size | bag.rb:73-75 | the number of elements counted with multiplicity |
| Bags.Bag.IsEmpty | bag.rb:77-79 | empty exactly when the multiset is empty |
| Bags.Bag.Includes | bag.rb:81-83 | true exactly when the element occurs |
| Bags.CopyIsIndependent | bag.rb:10-16 | deleting from the original leaves a copy taken before unchanged |
| Geometry.OppositeIsInvolution | main.rb:216-225 | `opposite_of` twice is the identity, and stepping forth and back returns to the start |
| Geometry.CompassIsAllDirections | main.rb:194-208 | the eight facings are exactly the non-zero vectors with components in -1..1 |
| Geometry.CompassIsDistinct | main.rb:194-208 | the eight facings are pairwise distinct |
| Geometry.CompassQuarterTurn | main.rb:194-208 | two places further in the clockwise order is a quarter turn |
| Geometry.At | main.rb:150-171 | `Map::at` reads the cell exactly when the point is within bounds, else raises RangeError |
| Geometry.SetCell | main.rb:159-171 | `set!` writes exactly that cell and keeps the shape; out of bounds it raises |
| Geometry.RowPositions | main.rb:290-301 | the cells of one row from a column on that hold the value, left to right |
| Geometry.PositionsFrom | main.rb:290-301 | the cells from a row on that hold the value, in row-major order |
| Geometry.Positions | main.rb:290-301 | `positions` returns exactly the coordinates holding the value, in row-major order |
| Geometry.TableCellsHoldTheirDigits | main.rb:303-315 | each drop offset sits under its base-26 digit in the layout |
| Geometry.LayoutCellsAreInTable | main.rb:303-315 | each non-blank layout cell is the digit of exactly the offset at its position |
| Geometry.DigitPositions | main.rb:303-315 | each digit occurs once in the layout, at its offset |
| Geometry.GeneratedSequenceIsTable | main.rb:303-315 | `generate_item_drop_sequence` produces the offset table |
| Geometry.ItemDropSeqIsDistinct | main.rb:303-315 | 25 pairwise-distinct offsets, the first [0,0] |
| Geometry.SquareIndex | main.rb:303-315 | each offset of the 5×5 square has an index in the sequence |
| Geometry.ItemDropSeqInSquare | main.rb:303-315 | every offset lies in [-2,2]×[-2,2] |
| Geometry.ItemDropSeqCoversSquare | main.rb:303-315 | every point of [-2,2]×[-2,2] is an offset |
| Ordering.CompareInt | item.rb:29-31 | Ruby's `<=>` on integers: sign of the difference |
| Ordering.CompareString | character.rb:52-54 | Ruby's `<=>` on strings: the result is -1, 0 or 1 |
| Ordering.CompareStringZero | character.rb:52-54 | string `<=>` is 0 exactly on equal strings |
| Ordering.CompareStringAntisymmetric | character.rb:52-54 | swapping the operands negates string `<=>` |
| Ordering.CompareStringTransitive | character.rb:52-54 | string `<=>` is transitive |
| Ordering.CompareVec | character.rb:52-54 | `<=>` on coordinate pairs is 0 exactly on equal pairs |
| Ordering.CompareVecIsOrder | character.rb:52-54 | `<=>` on pairs is antisymmetric and transitive |
| Characters.New | character.rb:8-19 | only the protagonist (hp 15) and ushiwaka (hp 10) can be made; any other name raises ArgumentError |
| Characters.NewIsAlive | character.rb:25-27 | a new character is not dead |
| Characters.Compare | character.rb:52-54 | `<=>` by (name, pos, dir, hp) is -1, 0 or 1 |
| Characters.CompareIsTotalOrder | character.rb:52-54 | `<=>` is 0 only on equal characters, antisymmetric and transitive |
| Characters.Insert | board.rb:121 | inserting into a sorted list keeps it sorted and adds exactly that element |
| Characters.Sort | board.rb:121 | `sort` gives a sorted permutation |
| Characters.SortedUnique | board.rb:121 | two sorted lists with the same multiset are equal |
| Characters.SortEqualIffSameMultiset | board.rb:121 | sorted lists compare equal exactly when the character bags hold the same multiset |
| Items.Compare | item.rb:29-31 | `<=>` by (name, number, pos) is 0 exactly on equal items and is led by the name |
| Items.CompareAntisymmetric | item.rb:29-31 | swapping the operands negates item `<=>`, and is nil on the same pairs |
| Traps.New | trap.rb:5-8 | only the pit trap (落とし穴) can be made; any other name raises |
| TrapHooks.Land | trap.rb:10-14 | one occurrence of the trap leaves the board; nothing else changes |
| TrapHooks.Step | trap.rb:17-20 | the character stepping in gets hp 0 and is dead, no other character changes, and one occurrence of the trap leaves |
| TrapHooks.LandOn | trap.rb:10-14 | `land` in place: the board afterwards is `Land` of the board before |
| TrapHooks.StepOn | trap.rb:17-20 | `step` in place: the board afterwards is `Step` of the board before |
| TrapHooks.PitFiresOnce | trap.rb:10-20 | a pit present once is gone after either hook, so it cannot fire twice |
| Boards.AsukaIndex | board.rb:49-51 | the first position holding the protagonist, or none when there is none |
| Boards.AsukaIndexAfterUpdate | board.rb:49-51 | replacing the protagonist by an updated protagonist keeps it found at the same index |
| Boards.AsukaOf | board.rb:49-51 | `asuka` finds a protagonist exactly when the board holds one, else raises |
| Boards.CharactersAt | board.rb:53-57 | exactly the characters standing at the position |
| Boards.CharacterIndexAt | board.rb:60-63 | `character_at`: the first character at the position, nil when none |
| Boards.ItemIndexAt | board.rb:74-76 | the first floor item at the position, nil when none |
| Boards.ItemAt | board.rb:74-76 | `item_at`: a floor item at the position exactly when one lies there |
| Boards.TrapAt | board.rb:78-80 | `trap_at`: a trap at the position exactly when one lies there |
| Boards.TrapAtIn | board.rb:78-80 | the same search over a trap list |
| Boards.TopObjectAt | board.rb:65-72 | a character if any, else a floor item, else the stairs, else nil |
| Boards.ComponentHashes | board.rb:92-96 | five hashes, one per component (their values are not stated) |
| Boards.SameContentsSameHash | board.rb:92-96 | boards whose components hold the same multisets hash alike |
| Boards.EqlIffSameContents | board.rb:98-126 | `eql?` holds exactly when all five components agree as multisets |
| Boards.EqlIsEquivalence | board.rb:98-126 | `eql?` is reflexive, symmetric and transitive, as a hash key needs |
| Boards.Solved | board.rb:167-169 | solved exactly when the stairs are at the protagonist's position; raises without a protagonist |
| Boards.Unsolvable | board.rb:171-175 | unsolvable exactly when the protagonist is dead |
| Boards.Score | board.rb:192-205 | the Chebyshev distance to the stairs, less 5 when the first character of the bag faces (-1, -1) and less 5 when no trap is left; so between that distance minus 10 and the distance, and at most 0 when solved |
| Boards.AfterDestroyItem | board.rb:215-224 | a floor item leaves the items, a carried one the inventory, and the other collection is unchanged |
| Boards.CanDrop | board.rb:226-230 | true exactly on an in-bounds cell that is not `■`/`◆` and holds no floor item; raises out of bounds |
| Boards.ItemDropFrom | board.rb:238-248 | the scan of drop offsets raises only RangeError |
| Boards.ItemDropFromTakes | board.rb:238-248 | each offset is taken if its cell is free, otherwise the scan moves on |
| Boards.ItemDropFromFound | board.rb:238-248 | a found spot is the first free candidate in drop order |
| Boards.ItemDropFromSkips | board.rb:238-248 | a nil result means the current candidate was blocked |
| Boards.ItemDropFromNone | board.rb:238-248 | nil means a trap at the origin or every remaining candidate blocked |
| Boards.ItemDropFromWithTrapAtOrigin | board.rb:241-243 | with a trap at the origin no spot is ever returned |
| Boards.AroundIsCompass | board.rb:255-283 | each ring of a landing row holds the eight facings, pairwise distinct |
| Boards.RakkaRowIsRingShaped | board.rb:255-283 | each landing row is [0,0], eight ring-1 offsets, then eight ring-2 offsets |
| Boards.RakkaRowAt | board.rb:255-283 | the table row of the k-th facing is the k-th rotated ring row |
| Boards.CharaRakkaTableIsClockwise | board.rb:255-283 | the table has a row exactly for the eight facings, each its rotated ring row |
| Boards.CharaRakkaTableShape | board.rb:255-283 | every row of the table is ring-shaped |
| Boards.CharacterDropFrom | board.rb:287-297 | the first offset whose cell is in bounds, free of characters and not `■`/`◆`/`水`; raises when none is |
| Boards.CharacterDrop | board.rb:287-297 | raises for a facing outside the table; a found spot is free and within two steps of the origin |
| Boards.Board.constructor | board.rb:10-22 | the board holds the given grid and components |
| Boards.Board.DeepCopy | board.rb:25-31 | a fresh board with the same grid and components |
| Boards.Board.SetComponents | board.rb:37-47 | the setters replace the components |
| Boards.Board.DestroyItem | board.rb:215-224 | `destroy_item!` in place: the state becomes `AfterDestroyItem` of the old state |
| Boards.Board.ItemDrop | board.rb:238-248 | `item_drop` computes the drop target of the current state |
| CharacterEffects.TurnedAround | character.rb:38 | the hit character faces opposite the incoming direction; nothing else changes |
| CharacterEffects.HitByProjectile | character.rb:33-45 | ushiwaka turns round, takes the item onto its cell and blows it back as actor; any other character hands the hit to `hit_effect` |
| CharacterEffects.Fukitobasareru | character.rb:48-50 | being blown away changes nothing |
| CharacterEffects.HitByProjectileOn | character.rb:33-45 | the in-place hit leaves the state `HitByProjectile` gives |
| Commands.Create | command.rb:12-22 | known kinds build a command with those arguments; any other kind raises ArgumentError |
| Commands.CreateRoundTrip | command.rb:12-22 | creating from a command's kind and arguments gives back that command |
| Commands.DirsAreTheCompass | command.rb:33 | `DIRS` is the eight facings, each once |
| Commands.MapCell | command.rb:254-264 | `board.map[y][x]` reads the cell in bounds; a row index outside Ruby's range raises |
| Commands.CanMoveInto | command.rb:261-266 | in bounds: true exactly when the cell is not `■`/`◆`/`水` and holds no character |
| Commands.AsukaCanMoveInto | command.rb:245-258 | in bounds: enterable and, for a diagonal, neither side cell is `■` |
| Commands.MoveResult | command.rb:217-234 | raises without a protagonist |
| Commands.IllegalMoveChangesNothing | command.rb:217-234 | an illegal move leaves the board as it was |
| Commands.LegalMove | command.rb:217-234 | a legal move sets position and facing; with pick it moves the item there into the inventory with pos nil, otherwise items and inventory are untouched |
| Commands.ExecuteMove | command.rb:217-234 | the in-place move leaves the state `MoveResult` gives |
| Commands.ThrowPathFrom | command.rb:94-107 | the path goes in steps of `dir`, every cell after the start in bounds and not `■`/`◆`, and stops before one that is not |
| Commands.ThrowPath | command.rb:94-107 | the same from the thrower's cell; a zero direction from an open cell never ends |
| Commands.ThrowPathStep | command.rb:96-104 | one step of the path, with its termination measure decreasing |
| Commands.ThrowTrajectory | command.rb:94-107 | the loop builds exactly `ThrowPath` |
| Commands.FirstHit | command.rb:111-126 | the first path cell after the start that holds a character |
| Commands.Thrown | command.rb:74-85 | succeeds exactly when there is a protagonist and the item is in the inventory or on the floor; then the thrower faces the throw direction and the item leaves the inventory or the floor, and nothing else changes |
| Commands.ItemLand | command.rb:146-157 | a trap at the landing cell gets `land`; otherwise the item is placed at the drop target, or lost when there is none |
| Commands.ItemLandAsWritten | command.rb:146-157 | as written, an item that does not fall into a trap never returns to the board |
| Commands.ThrowResult | command.rb:74-138 | raises without a protagonist |
| Commands.ThrowAsWritten | command.rb:74-138 | raises without a protagonist |
| Commands.ThrownItemLands | command.rb:133-157 | a throw that hits nothing lands the item at the drop target; as written it is removed and never placed |
| Commands.UnmovedItemStays | command.rb:134-137 | a floor item whose flight ends where it lay stays on the floor as intended; as written it leaves the items and is never put back |
| Commands.ThrowHits | command.rb:111-126 | a throw with a character on its path hands the first such character to `hit_by_projectile` |
| Commands.ItemLandOn | command.rb:146-157 | the in-place landing leaves the state `ItemLand` gives |
| Commands.TakeThrown | command.rb:74-85 | the in-place take-off leaves the state `Thrown` gives |
| Commands.FlyThrown | command.rb:94-138 | the in-place flight leaves the state the throw's flight gives |
| Commands.ExecuteThrow | command.rb:74-138 | the in-place throw leaves the state `ThrowResult` gives |
| Commands.DropResult | command.rb:194-201 | when `can_drop?` holds and the item is carried, one occurrence leaves the inventory and is appended to the floor items at the protagonist's cell; when `can_drop?` is false nothing changes; a missing protagonist or item raises |
| Commands.ExecuteDrop | command.rb:194-201 | the in-place drop leaves the state `DropResult` gives |
| Commands.PickAsWritten | command.rb:51-58 | as written, pick never changes the board, and raises only through `asuka` |
| Commands.PickResult | command.rb:51-58 | the floor item under the protagonist moves to the inventory with pos nil |
| Commands.PickAsWrittenPicksNothing | command.rb:51-58 | with an item underfoot the code as written keeps the board while the intended pick changes it |
| Commands.ExecutePick | command.rb:51-58 | the in-place pick leaves the state `PickResult` gives |
| Commands.UseResult | command.rb:277-280 | the protagonist faces the direction and then uses the item |
| Commands.ExecuteUse | command.rb:277-280 | the in-place use leaves the state `UseResult` gives |
| Commands.Execute | command.rb:44 | each command kind runs its own `execute` |
| Commands.ExecuteOn | command.rb:44 | in-place execution leaves the state `Execute` gives |
| ItemEffects.HikiyoseTarget | item.rb:129-145 | a target exists exactly when the bullet path has a second cell and its last cell holds a character, item or stairs |
| ItemEffects.CharacterPositions | item.rb:150 | the positions of the characters, in order |
| ItemEffects.Obstacles | item.rb:150 | exactly the character cells, the `■`/`◆` cells and the protagonist's cell |
| ItemEffects.SlideIn | item.rb:147-164 | the cell after the result is an obstacle; an endless slide is an error |
| ItemEffects.PullDestination | item.rb:147-164 | `hikiyose_move`: the cell after the result is an obstacle |
| ItemEffects.SlideInPassesOnlyFreeCells | item.rb:154-163 | every cell the slide passes through is free |
| ItemEffects.PullPassesOnlyFreeCells | item.rb:154-163 | the pulled target passes only free cells |
| ItemEffects.RayDistance | item.rb:154-163 | each step of a non-zero direction moves one further from the start |
| ItemEffects.PullDivergesOnlyWhenNothingAhead | item.rb:154-161 | the slide is endless only when no obstacle lies anywhere ahead |
| ItemEffects.Slide | item.rb:151-163 | the loop computes exactly `SlideIn` |
| ItemEffects.HikiyoseMove | item.rb:147-164 | computes exactly `PullDestination` |
| ItemEffects.PullTarget | item.rb:94-119 | the inventory, traps and character count stay; it raises exactly when nothing is at the target |
| ItemEffects.PulledCharacterLands | item.rb:96-103 | a pulled character is the same character at a free landing spot within two steps of the pull point |
| ItemEffects.ReplaceFirst | item.rb:122-125 | one occurrence is swapped for the new value, length kept |
| ItemEffects.SpendCharge | item.rb:121-125 | the wand's number drops by one in the collection holding it; a wand without a number raises |
| ItemEffects.Hikiyose | item.rb:58-126 | an empty wand, a missing target, or a target that would not move leaves the board unchanged |
| ItemEffects.HikiyoseSpendsOneCharge | item.rb:121-125 | a pull that changes the board had a charge and spends exactly one |
| ItemEffects.Use | item.rb:41-52 | the pull wand pulls, the swap wand swaps, and any other item is consumed |
| ItemEffects.UseAsWritten | item.rb:41-52 | the code as written agrees with `Use` on both wands |
| ItemEffects.UseAsWrittenRaisesOnHerb | item.rb:47-50 | using a herb raises as written, where `Use` succeeds |
| ItemEffects.ExecuteHikiyose | item.rb:58-126 | the in-place pull leaves the state `Hikiyose` gives |
| ItemEffects.SpendChargeOn | item.rb:121-125 | the in-place decrement leaves the state `SpendCharge` gives |
| ItemEffects.PullOn | item.rb:94-119 | the in-place move of the target leaves the state `PullTarget` gives |
| ItemEffects.UseOn | item.rb:41-52 | the in-place use leaves the state `Use` gives |
| Trajectories.Walls | main.rb:526 | exactly the `■`/`◆` cells |
| Trajectories.BulletStep | main.rb:547-593 | an open cell ahead is entered with the same direction; a reflection only happens to an unreflected bullet; a breakdown needs a skewed direction |
| Trajectories.FlightFrom | main.rb:523-597 | the flight starts at the shot, and runs out of fuel only on a full-length path |
| Trajectories.MaxTrajectory | main.rb:523-531 | starts at the protagonist's cell with the given direction; raises without a protagonist |
| Trajectories.Step | main.rb:547-593 | the loop body computes exactly `BulletStep` |
| Trajectories.DrawFlight | main.rb:523-597 | the loop draws exactly `FlightFrom` |
| Trajectories.DrawWithin | main.rb:529-596 | the loop draws exactly `FlightFrom` given the wall list |
| Trajectories.MaxBulletTrajectory | main.rb:523-597 | computes exactly `MaxTrajectory` |
| Trajectories.FlightStepsAreOpen | main.rb:589-593 | no yielded cell after the start is `■`/`◆`, and an open step never reflects |
| Trajectories.NoSecondReflection | main.rb:547-588 | after a reflection no further reflection happens |
| Trajectories.AtMostOneReflection | main.rb:547-588 | any flight reflects at most once |
| Trajectories.BlockedFlightEnds | main.rb:547-572 | a blocked axis step, or a diagonal with both sides walls, ends the flight there |
| Trajectories.ReflectionGeometry | main.rb:554-586 | each reflection is a side reflection that negates the blocked component, or a corner one with the prescribed cell and direction |
| Trajectories.CompassFlightNeverRaises | main.rb:576-585 | a shot in one of the eight facings never reaches the raise and stays in the facings |
| Trajectories.CompassStep | main.rb:576-585 | one step from a facing neither raises nor leaves the facings |
| Trajectories.FirstStop | main.rb:496-521 | the first path cell from an index on where the stop test holds |
| Trajectories.Truncate | main.rb:496-521 | a prefix of the raw flight that ends at the first stop after the start, or all of it when the flight vanished |
| Trajectories.TakeUntil | main.rb:496-521 | the loop computes exactly `Truncate` |
| Trajectories.NormalBulletTrajectory | main.rb:512-521 | the raw flight cut at the first character after the start |
| Trajectories.MoverBulletTrajectory | main.rb:496-507 | the raw flight cut at the first character, floor item or stairs after the start |
| Trajectories.MoverStopsNoLater | main.rb:496-521 | the mover trajectory is a prefix of the normal one |
| Program.MoveCommands | main.rb:341-345 | exactly the two moves (pick and no pick) for each direction |
| Program.ItemCommandsIn | main.rb:349-354 | exactly a throw and a use for each inventory item in one direction |
| Program.ItemCommands | main.rb:349-354 | exactly a throw and a use for every direction and inventory item |
| Program.ItemCommandsCount | main.rb:349-354 | there are `|dirs| · 2 · |inventory|` of them |
| Program.Droppable | main.rb:356-362 | the inventory items other than the pull wand |
| Program.DropCommands | main.rb:356-362 | exactly one drop per droppable item |
| Program.WandUnderfoot | main.rb:340 | whether a pull wand lies at the protagonist's cell |
| Program.CommandsFor | main.rb:332-367 | as intended: exactly the moves (unless a pull wand lies underfoot), throws, uses and drops; never a pick |
| Program.CommandsAsWritten | main.rb:332-367 | as written every board raises: the protagonist lookup's error when there are floor items and no protagonist, otherwise ArgumentError |
| Program.CommandsAsWrittenAlwaysRaises | main.rb:340-344 | wherever the intended list exists the code as written raises ArgumentError; elsewhere both raise the same error |
| Program.CommandsCount | main.rb:332-367 | 8 moves or none, 16 per inventory item, one per droppable item |
| Program.Outcomes | main.rb:399-401 | every command executed in order, failing when any one raises |
| Program.Successors | main.rb:399-401 | one successor per command offered |
| Program.SuccessorIsExecution | main.rb:399-401 | the k-th successor is the k-th command's execution |
| Program.ExecuteOnCopy | main.rb:401 | executing on a deep copy yields the executed state and leaves the board alone |
| Program.SuccessorsOf | main.rb:399-419 | the loop computes exactly `Successors` |
| Program.EdgeIsCommand | main.rb:399-417 | each search edge is an offered command whose execution gives the next board |
| Program.Solve | main.rb:432-460 | the path starts at the initial board and ends at a solved one; each step is an offered command leading to a board not `eql?` to the one before; no board after the first is unsolvable |
| Search.Lookup | main.rb:409 | `dist[n]`: none exactly when no visit has that key |
| Search.PopMin | main.rb:387-393 | the popped visit has the lowest score in the queue |
| Search.RecordKeepsWellFormed | main.rb:409-418 | recording a new board with parent and dist+1 keeps the table well-formed |
| Search.SettledExtends | main.rb:399-419 | a settled successor stays settled as the table grows |
| Search.ExpandedExtends | main.rb:399-419 | an expanded visit stays expanded as the table grows |
| Search.Discover | main.rb:399-419 | first discoveries are recorded and queued; equal or unsolvable successors are dropped; every successor ends settled |
| Search.Search | main.rb:372-424 | the table stays well-formed; a returned board is solved; an emptied queue means every discovered board was expanded |
| Search.Reverse | main.rb:459 | `reverse` puts element k at position n-1-k |
| Search.ReconstructPath | main.rb:452-470 | the path starts at init, ends with `[goal, nil]`, has length dist+1, and follows recorded steps |
| Fei.Split | fei.rb:54-60 | raises unless the block is 2716 bytes; the fields have the listed sizes and together are the block |
| Fei.Chunks | fei.rb:87-127 | `each_slice(w)` with complete slices only |
| Fei.ChunksAt | fei.rb:87-127 | slice k is bytes k·w up to k·w+w |
| Fei.UpToEndIsPrefix | fei.rb:87-127 | the records read are a prefix that stops at the first end marker |
| Fei.ReadRecords | fei.rb:87-127 | the reading loop yields exactly the decoded slices before the end marker |
| Fei.RecordAt | fei.rb:87-127 | record k is the decoding of bytes k·w up to k·w+w |
| Fei.Rooms | fei.rb:87-95 | at most 15 rooms, none with y1 = 0xff |
| Fei.ReadRooms | fei.rb:87-95 | the loop reads exactly `Rooms` |
| Fei.S16 | fei.rb:97-108 | a signed 16-bit value in native byte order (little-endian on the usual hosts), congruent to the unsigned one |
| Fei.Characters | fei.rb:97-108 | requires 320 bytes; at most 32 records, none of kind 0 |
| Fei.ReadCharacters | fei.rb:97-108 | the loop reads exactly `Characters` |
| Fei.Items | fei.rb:110-117 | at most 64 records, none whose y equals its kind |
| Fei.ReadItems | fei.rb:110-117 | the loop reads exactly `Items` |
| Fei.Traps | fei.rb:119-127 | at most 64 records, none of kind 0 |
| Fei.ReadTraps | fei.rb:119-127 | the loop reads exactly `Traps` |
| Fei.Visible | fei.rb:168-170 | visible exactly when bit 0 of the flags is set |
| Fei.Nibble | fei.rb:130-134 | cell 2i is the low nibble and cell 2i+1 the high nibble of byte i |
| Fei.Nibbles | fei.rb:130-134 | every byte gives two cells, in that order |
| Fei.ReadChikei | fei.rb:130-134 | 42 rows of 66 cells, cell (x, y) being nibble 66·y + x |
| Fei.DecodeFloor | fei.rb:54-73 | raises exactly when the block is not 2716 bytes |
| Fei.DecodeFloorInfo | fei.rb:81-85 | protagonist y,x from bytes 0-1, stairs y,x from bytes 6-7, difficulty from byte 18 of the info field |
| Fei.DecodeFloorChikei | fei.rb:60 | the terrain is the nibbles of bytes 60 to 1446 |
| Fei.DecodeFloorCharactersField | fei.rb:60 | the character field is bytes 1446 to 1766 |
| Fei.DecodeFloorCharacters | fei.rb:97-108 | character k is decoded from bytes 1446+10k to 1456+10k of the block |
| Fei.NewFloor | fei.rb:54-73 | the constructor computes exactly `DecodeFloor` |
| Fei.KnownCharacterEntry | fei.rb:239-263 | the protagonist is in no kind list, and ushiwaka is exactly level 1 of kind 122 |
| Fei.CharacterName | fei.rb:142-152 | entry level-1 of the kind's list; an unknown kind or too high a level raises |
| Fei.LevelZeroNamesTheLast | fei.rb:142-152 | level 0 names the last entry, as Ruby's index -1 does |
| Fei.ItemName | fei.rb:156-158 | the name of a registered kind, else a raise |
| Fei.TrapName | fei.rb:162-166 | the name of a registered kind, else a raise |
| BoardBuilder.ConvertChikei | board_builder.rb:17-28 | keeps the grid shape; codes 0 and 5 are floor, 1 and 2 `■`, 3 `◆`, 4 `水` |
| BoardBuilder.DirToVec | board_builder.rb:31-40 | indices 0..7 give the eight facings; a higher index is outside the table |
| BoardBuilder.DirToVecIsClockwise | board_builder.rb:31-40 | the eight vectors are distinct and run clockwise, two indices being a quarter turn |
| BoardBuilder.ConvertCharacter | board_builder.rb:41-46 | pos `[x, y]` from the record, the facing from `DIR_TO_VEC`, made as `Character.new` makes it |
| BoardBuilder.ConvertCharacterAcceptsOnlyUshiwakamaru | board_builder.rb:41-46 | conversion succeeds exactly for level-1 kind-122 records with a direction below 8 |
| BoardBuilder.ConvertCharacters | board_builder.rb:48-50 | converts every record, in order, or raises |
| BoardBuilder.ConvertItems | board_builder.rb:52-58 | one item per record with name, number and pos `[x, y]`; an unregistered kind raises |
| BoardBuilder.ConvertTrapAsWritten | board_builder.rb:60-66 | as written, an unregistered kind raises |
| BoardBuilder.ConvertTrapAsWrittenAlwaysRaises | board_builder.rb:60-66 | as written, every trap record raises, the pit included |
| BoardBuilder.ConvertTrap | board_builder.rb:60-66 | exactly a kind-28 record becomes a pit at `[x, y]` |
| BoardBuilder.ConvertTraps | board_builder.rb:60-66 | converts every record, in order, or raises |
| BoardBuilder.ConvertAsWritten | board_builder.rb:68-83 | as written every floor raises NoMethodError |
| BoardBuilder.ConvertAsWrittenNeverConverts | board_builder.rb:68-83 | as written no floor converts, while as intended every floor whose records convert does |
| BoardBuilder.ConvertWith | board_builder.rb:68-83 | with the board assembled as intended: a 42×66 grid, an empty inventory, one item and trap per record, the protagonist last at its start facing up, the stairs at their position |
| BoardBuilder.Convert | board_builder.rb:68-83 | as intended, a converted floor holds only pit traps |
| BoardBuilder.TrapsAsWrittenRejectTrappedFloors | board_builder.rb:60-83 | with the board assembled as intended but the traps converted as written, any floor with a trap fails to convert |
| BoardBuilder.ConvertKeepsPits | board_builder.rb:60-83 | with the fix, a floor of pits converts, each trap a pit at its record's position |

## Left out

- Text output is not modelled: `to_s`, `symbol`, `render_*`, `dir_to_char`, `dir_to_s`, `vec_to_s`, `print_path`, `p`/`puts`/`STDERR` (none of it changes state).
- `Book` and the `io.read` loop are not modelled. The decoders work on a byte sequence.
- `Util.to_utf8` is not modelled. The floor name stays raw Shift_JIS bytes.
- Four collaborators are parameters, because their code is not part of this model: `magic_bullet_trajectory`, `Item#execute_bashogae`, `Item#hit_effect` and `Item#fukitobasareru`. They are the fields of the `Hooks` datatype.
- `Kaidan` is reduced to its position.
- `Board#get_wand` and `Board#dimensions` are not modelled. The solver does not call them.
- Entities are values, so aliasing is not modelled. Ruby mutates a character or item in place inside its bag; the model replaces the element in the sequence, for example the pull wand's number in `ReplaceFirst`.
- The `@hash`/`@score` caches (`set_hash`, `set_score`) are not modelled. `hash` and `score` are always recomputed, which gives the same values.
- The board hash is a 64-bit XOR over an abstract element hash (`Hasher`). Ruby's own object hashes are not modelled.
- `item.rb:150` adds an Array to `board.characters`, a Bag, so as written `Bag#+` raises TypeError there (`bag.rb:69`) and every pull that reaches `hikiyose_move` raises. `ItemEffects.Obstacles` models the intended list of obstacles. `Bags.Bag.Plus` takes only a Bag, so its TypeError branch is not modelled.
- `Search.PopMin`: the priority queue's internals are left out. Ties go to the first queued minimum. The pop raises if any queued score raises.
- `Search.Search` computes all successors of a board before it looks at any of them. Ruby also raises from `commands`/`execute` before the checks.
- `Search.Search` does not state that a first-found goal is of least score or least distance; only the shape of the table is proved.
- `Search.Search`, `Program.Solve` take a `fuel` bound. When it runs out the result is `FuelExhausted`, which Ruby never produces.
- `Trajectories.FlightFrom` takes a `fuel` bound. A flight that would loop ends `OutOfFuel`.
- `ItemEffects.SlideIn` and `Commands.ThrowPath` report `Diverges` where Ruby would loop forever.
- `Program.ExecuteOnCopy` departs from `main.rb:401`, which runs `cmd.execute(curr)` on the current board. That mutates the board being expanded, and `execute` returns no board. The model executes each command on a deep copy and takes the copy's new state, as the search evidently intends.
- `Program.WandUnderfoot` compares each floor item's pos with the protagonist's position, the evident intent. `main.rb:340` compares it with the Character itself, which never matches. As in Ruby, the protagonist is looked up only when there are floor items.
- Four comparisons between different types are modelled by their evident intent, the position test: `command.rb:263` and `item.rb:150` compare a Character with a coordinate; `item.rb:114` and `item.rb:140` compare a Kaidan with a coordinate. Likewise `item.rb:118` hands a coordinate to the `kaidan` writer, whose type check (`board.rb:36-41`) raises TypeError; the model sets the stairs to `Kaidan(newpos)`.
- Names are Strings in some places and Symbols in others; the model uses one name per entity, the evident intent. `board.rb:50` looks the protagonist up by a String while `character.rb:5` uses a Symbol. The converter turns every name into a Symbol with `.to_sym` (`board_builder.rb:42`, `:55`, `:63`), while item names are compared with the String constants of `item.rb:14-17` (`item.rb:43`, `:45`, `main.rb:340`, `:357`, `board.rb:208`) and `trap.rb:6` compares with a String. So, as written, a converted pull wand is never recognised as one, and `Trap.new` refuses a converted trap whatever its spelling.
- `Command#legal?` (`command.rb:39`) returns true. `CommandDrop` (`command.rb:187`) is not a subclass of `Command` and has no `legal?`, so the selection at `main.rb:366` would raise NoMethodError on a drop; as written it is never reached (see Findings). The model keeps every command, drops included.
- `CommandThrow#execute_ento_throw` is not modelled. `execute` never reaches it.
- The model takes `Character` and `Trap` from `character.rb` and `trap.rb`. This is a choice of the model: no file requires those two, and `main.rb:81-138` defines String-named versions with the same two characters, hit points and pit trap, which are not modelled apart.
- `BoardBuilder.ConvertCharacter` raises `UnmappedDirection` for a direction of 8 or more. Ruby's `DIR_TO_VEC[dir]` yields nil there and the character gets a nil facing.
- Hit points and all counters are unbounded integers. Ruby integers do not overflow.
- `Program.CommandsFor`: models `commands` as intended, building each command with `Command.create`. As written `main.rb:343` calls `Command.new(:move, d, true)`, which raises ArgumentError on every board, and a drop would meet the missing `legal?` at `main.rb:366` (see Findings, `Program.CommandsAsWritten`). `Search.Search` and `Program.Solve` use the intended list.
- `Program.MoveCommands`: builds the moves with `Command.create`; `main.rb:343-344` calls `Command.new`, which raises ArgumentError as written.
- `Program.ItemCommandsIn`: builds the throws and uses with `Command.create`; `main.rb:351-352` calls `Command.new`, which raises ArgumentError as written.
- `Program.ItemCommands`: made of `Program.ItemCommandsIn`, so the same `Command.new` raise of `main.rb:351-352` is not captured.
- `Program.DropCommands`: builds the drops with `Command.create`; `main.rb:360` calls `Command.new`, which raises ArgumentError as written, and `CommandDrop` has no `legal?` for `main.rb:366`.
- `BoardBuilder.ConvertWith`: models `convert` with lines 70 and 82 repaired. As written `board_builder.rb:70` raises NoMethodError on every floor, and `board_builder.rb:82` would raise ArgumentError next (see Findings, `BoardBuilder.ConvertAsWritten`).
- `BoardBuilder.Convert`: the intended conversion, `BoardBuilder.ConvertWith` with the traps converted as intended; the raises of `board_builder.rb:70` and `:82` are stated by `BoardBuilder.ConvertAsWritten` instead.
- `Commands.MoveResult`: its own contract states only the missing-protagonist case. The move itself is stated by `Commands.LegalMove` and `Commands.IllegalMoveChangesNothing`.
- `Commands.ThrowResult`: its own contract states only the missing-protagonist case. The flight outcomes are stated by `Commands.ThrownItemLands` and `Commands.ThrowHits`. A throw whose path ends on a trap is not stated beyond `Commands.ItemLand`.
- `ItemEffects.PullTarget`: what happens to a pulled floor item or to the stairs is not stated beyond the unchanged inventory and traps. A pulled character is stated by `ItemEffects.PulledCharacterLands`.
- `ItemEffects.Hikiyose`: the moved board is stated only through `ItemEffects.HikiyoseSpendsOneCharge` and `ItemEffects.PullTarget`.
- `Fei.Rooms`, `Fei.Items`, `Fei.Traps`: their own contracts state bounds and the end marker. The content of each record is stated by `Fei.RecordAt`.
- `Boards.ItemDropFrom`: its own contract states only the error. The scan is stated by the `ItemDropFrom*` lemmas.

## Findings

| source | as written | input that shows it | evidently intended | confidence | as-written member | corrected member |
|---|---|---|---|---|---|---|
| command.rb:53 | `item = board.items.any? { … }` stores a boolean, and the block compares an item's pos with a Character, so nothing is ever picked | a board with a floor item under the protagonist | the floor item under the protagonist moves to the inventory with pos nil | high; not executed | Commands.PickAsWritten, Commands.PickAsWrittenPicksNothing | Commands.PickResult |
| command.rb:134-137 | when the flight ends on the cell the thrown item lay on, nothing is done; the item was already taken off the board at line 85, so it vanishes | a throw of a floor item lying under the protagonist against an adjacent wall (the solver's own commands throw only inventory items) | the item stays on the floor | high; not executed | Commands.ThrowAsWritten, Commands.UnmovedItemStays | Commands.ThrowResult, Commands.UnmovedItemStays |
| command.rb:152-155 | the item gets its landing pos but is never added back to `board.items`, so a thrown item that misses vanishes | a throw that hits no character and ends on a trap-free cell with a free drop spot | the item is placed on the floor at the drop spot | high; not executed | Commands.ItemLandAsWritten, Commands.ThrowAsWritten, Commands.ThrownItemLands | Commands.ItemLand, Commands.ThrowResult |
| item.rb:50 | the fallback of `use` calls `inventory.delete(item)` inside Item, where neither name exists, so it raises NameError | using a herb (雑草) | the item is used up: one occurrence leaves the inventory | high; not executed | ItemEffects.UseAsWritten, ItemEffects.UseAsWrittenRaisesOnHerb | ItemEffects.Use |
| board_builder.rb:63-64 | the trap name comes from `TRAP_KIND`, which spells the pit 落し穴 (fei.rb:179), and `.to_sym` makes it a Symbol, while `Trap.new` accepts only the String 落とし穴 (trap.rb:6), so every trap raises; as written this is not reached, since `convert` raises at line 70 first | any floor with a pit trap record (kind 28), once lines 70 and 82 are repaired | a kind-28 record becomes a pit trap at its position | high; not executed | BoardBuilder.ConvertTrapAsWritten, BoardBuilder.ConvertTrapAsWrittenAlwaysRaises, BoardBuilder.TrapsAsWrittenRejectTrappedFloors | BoardBuilder.ConvertTrap, BoardBuilder.ConvertKeepsPits |
| board_builder.rb:70-82 | `Board.map = chikei` calls a class-level `map=` that `Board` does not define (board.rb:33 is an instance reader), so every floor raises NoMethodError; next, `Board.new` gets five arguments where board.rb:10 takes six (ArgumentError) | any floor | the terrain becomes the board's map and the board is built from all six components | high; not executed | BoardBuilder.ConvertAsWritten, BoardBuilder.ConvertAsWrittenNeverConverts | BoardBuilder.Convert, BoardBuilder.ConvertKeepsPits |
| main.rb:340-366 | `Command.new(:move, d, true)` (line 343) passes arguments to `Command#initialize`, which takes none (command.rb:26), and the guard at line 340 never holds, so every board raises ArgumentError; drops (line 360) would also meet the missing `CommandDrop#legal?` at line 366 | any board | the commands are built with `Command.create` and all are kept | high; not executed | Program.CommandsAsWritten, Program.CommandsAsWrittenAlwaysRaises | Program.CommandsFor, Program.CommandsCount |
