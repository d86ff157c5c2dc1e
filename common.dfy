/** Failure-carrying wrappers shared by every module, and the exceptions the
    Ruby solver can raise, one constructor per distinct failure. */
module Results {

  datatype Option<+T> = None | Some(value: T)

  /** What a Ruby `raise` (or an endless loop) turns into in the model. */
  datatype Error =
    | RangeError          // Map::at / Map::set! outside the grid
    | NoMethodError       // a method called on nil (missing table entry, nil cell row, ...)
    | ArgumentError       // unknown character name, or arguments a constructor does not take
    | TypeError           // Bag#+ with a non-Bag
    | NoProtagonist       // Board#asuka finds no protagonist
    | NoLandingSpot       // Board#character_drop exhausted its table
    | NameError           // a name not defined where it is used (the fallback of Item#use)
    | UncoveredCase      // Item#execute_hikiyose target is neither character, item nor stairs
    | UnknownTrap         // Trap.new with a name other than the pit trap
    | Diverges            // the source loops forever (no obstacle ever met)
    | UnmappedDirection   // a direction index outside DIR_TO_VEC (Ruby goes on with nil)
    | BadDirection        // max_bullet_trajectory's corner reflection with |dx*dy| > 1
    | SolutionNotFound    // Program#search emptied its queue
    | FuelExhausted       // the model's step budget ran out (no counterpart in the source)
    | PrematureEnd        // Fei floor block shorter than 2716 bytes
    | UnregisteredCharacter
    | UnregisteredLevel
    | UnregisteredItem
    | UnregisteredTrap

  datatype Result<+T> = Ok(value: T) | Err(error: Error)

  /** Outcome of a method that changes state in place and may raise. */
  datatype Status = Done | Failed(error: Error)

  /** Ruby's `array[i]`: a negative index counts from the end; beyond
      either end there is nothing (nil). */
  function RubyIndex(len: nat, i: int): (r: Option<nat>)
    ensures r.Some? ==> r.value < len
    ensures 0 <= i < len <==> r == Some(i)
    ensures r.None? <==> i < -(len as int) || len <= i
    ensures -(len as int) <= i < 0 ==> r == Some((len as int + i) as nat)
  {
    if 0 <= i < len then Some(i) else if -(len as int) <= i < 0 then Some(len + i) else None
  }
}
