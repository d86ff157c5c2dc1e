/** The game position of board.rb: the terrain (shared, never changed by a
    move), the carried items, the floor items, the characters, the stairs
    and the traps. `BoardState` is the value of the five components that
    moves change; `Board` is the object whose fields the commands update. */
module Boards {
  import opened Results
  import opened Geometry
  import opened Bags
  import opened Items
  import opened Characters
  import opened Traps

  /** The stairs (only their position is used). */
  datatype Kaidan = Kaidan(pos: Vec)

  /** `COMPONENT_NAMES`: inventory, items, characters, kaidan, traps. The
      collections are bags: insertion-ordered, compared as multisets. */
  datatype BoardState = BoardState(
    inventory: seq<Item>,
    items: seq<Item>,
    characters: seq<Character>,
    kaidan: Kaidan,
    traps: seq<Trap>)

  /** The index of the first character named like the protagonist. */
  function AsukaIndex(cs: seq<Character>): (r: Option<nat>)
    ensures r.None? <==> forall i | 0 <= i < |cs| :: cs[i].name != Asuka
    ensures r.Some? ==> r.value < |cs| && cs[r.value].name == Asuka
    ensures r.Some? ==> forall i | 0 <= i < r.value :: cs[i].name != Asuka
  {
    if |cs| == 0 then None
    else if cs[0].name == Asuka then Some(0)
    else match AsukaIndex(cs[1..])
      case None => None
      case Some(i) => Some(i + 1)
  }

  /** Replacing the protagonist by a changed protagonist keeps its index. */
  lemma AsukaIndexAfterUpdate(cs: seq<Character>, ai: nat, c: Character)
    requires AsukaIndex(cs) == Some(ai) && c.name == Asuka
    ensures AsukaIndex(cs[ai := c]) == Some(ai)
  {
    var cs' := cs[ai := c];
    assert cs'[ai].name == Asuka;
    assert forall i | 0 <= i < ai :: cs'[i].name != Asuka;
  }

  /** `asuka`: the first character with the protagonist's name; raises when
      there is none. */
  function AsukaOf(s: BoardState): (r: Result<Character>)
    ensures r.Ok? <==> exists c | c in s.characters :: c.name == Asuka
    ensures r.Ok? ==> r.value in s.characters && r.value.name == Asuka
    ensures r.Err? ==> r.error == NoProtagonist
  {
    match AsukaIndex(s.characters)
    case None => Err(NoProtagonist)
    case Some(i) => Ok(s.characters[i])
  }

  /** `characters_at`: the characters standing on `p`, in bag order. */
  function CharactersAt(cs: seq<Character>, p: Vec): (r: seq<Character>)
    ensures forall c :: c in r <==> c in cs && c.pos == p
    ensures |r| <= |cs|
  {
    if |cs| == 0 then []
    else if cs[0].pos == p then [cs[0]] + CharactersAt(cs[1..], p)
    else CharactersAt(cs[1..], p)
  }

  /** The index of the first character standing on `p` (the one
      `chara, = characters_at(pos)` picks). */
  function CharacterIndexAt(cs: seq<Character>, p: Vec): (r: Option<nat>)
    ensures r.None? <==> |CharactersAt(cs, p)| == 0
    ensures r.Some? ==> r.value < |cs| && cs[r.value] == CharactersAt(cs, p)[0]
    ensures r.Some? ==> cs[r.value].pos == p && forall i | 0 <= i < r.value :: cs[i].pos != p
  {
    if |cs| == 0 then None
    else if cs[0].pos == p then Some(0)
    else match CharacterIndexAt(cs[1..], p)
      case None => None
      case Some(i) => Some(i + 1)
  }

  /** The index of the first item lying on `p`. */
  function ItemIndexAt(items: seq<Item>, p: Vec): (r: Option<nat>)
    ensures r.None? <==> forall i | 0 <= i < |items| :: items[i].pos != Some(p)
    ensures r.Some? ==> r.value < |items| && items[r.value].pos == Some(p)
    ensures r.Some? ==> forall i | 0 <= i < r.value :: items[i].pos != Some(p)
  {
    if |items| == 0 then None
    else if items[0].pos == Some(p) then Some(0)
    else match ItemIndexAt(items[1..], p)
      case None => None
      case Some(i) => Some(i + 1)
  }

  /** `item_at`: the first floor item on `p`, or nil. */
  function ItemAt(s: BoardState, p: Vec): (r: Option<Item>)
    ensures r.None? <==> forall it | it in s.items :: it.pos != Some(p)
    ensures r.Some? ==> r.value in s.items && r.value.pos == Some(p)
  {
    match ItemIndexAt(s.items, p)
    case None => None
    case Some(i) => Some(s.items[i])
  }

  /** `trap_at`: the first trap on `p`, or nil. */
  function TrapAt(s: BoardState, p: Vec): (r: Option<Trap>)
    ensures r.None? <==> forall t | t in s.traps :: t.pos != p
    ensures r.Some? ==> r.value in s.traps && r.value.pos == p
  {
    TrapAtIn(s.traps, p)
  }

  function TrapAtIn(ts: seq<Trap>, p: Vec): (r: Option<Trap>)
    ensures r.None? <==> forall t | t in ts :: t.pos != p
    ensures r.Some? ==> r.value in ts && r.value.pos == p
  {
    if |ts| == 0 then None
    else if ts[0].pos == p then Some(ts[0])
    else TrapAtIn(ts[1..], p)
  }

  /** `kaidan_at?`. */
  predicate KaidanAt(s: BoardState, p: Vec)
  {
    s.kaidan.pos == p
  }

  /** What `top_object_at` can return. */
  datatype TopObject = CharacterObject(c: Character) | ItemObject(it: Item) | StairsObject(k: Kaidan)

  /** `top_object_at`: a character on `p` if any, else a floor item on `p`,
      else the stairs when they are on `p`, else nil. */
  function TopObjectAt(s: BoardState, p: Vec): (r: Option<TopObject>)
    ensures |CharactersAt(s.characters, p)| > 0 ==> r == Some(CharacterObject(CharactersAt(s.characters, p)[0]))
    ensures |CharactersAt(s.characters, p)| == 0 && ItemAt(s, p).Some? ==> r == Some(ItemObject(ItemAt(s, p).value))
    ensures |CharactersAt(s.characters, p)| == 0 && ItemAt(s, p).None? && KaidanAt(s, p) ==> r == Some(StairsObject(s.kaidan))
    ensures r.None? <==> |CharactersAt(s.characters, p)| == 0 && ItemAt(s, p).None? && !KaidanAt(s, p)
  {
    var here := CharactersAt(s.characters, p);
    if |here| > 0 then Some(CharacterObject(here[0]))
    else match ItemAt(s, p)
      case Some(it) => Some(ItemObject(it))
      case None => if KaidanAt(s, p) then Some(StairsObject(s.kaidan)) else None
  }

  /** The element hash functions (Ruby's `hash` on items, characters, the
      stairs and traps), left abstract. */
  datatype Hasher = Hasher(
    item: Item -> bv64,
    character: Character -> bv64,
    kaidan: Kaidan -> bv64,
    trap: Trap -> bv64)

  /** The hashes of the five components in `COMPONENT_NAMES` order; a bag
      hashes as the XOR of its elements' hashes. */
  function ComponentHashes(h: Hasher, s: BoardState): (r: seq<bv64>)
    ensures |r| == 5
  {
    [XorFold(s.inventory, h.item), XorFold(s.items, h.item), XorFold(s.characters, h.character),
     h.kaidan(s.kaidan), XorFold(s.traps, h.trap)]
  }

  /** `_hash`: the component hashes reduced with XOR. */
  function Hash(h: Hasher, s: BoardState): bv64
  {
    XorFold(ComponentHashes(h, s), x => x)
  }

  /** `eql?`: false when the hashes differ; otherwise each bag is compared
      with Bag equality, the characters as sorted lists, and the stairs by
      value. */
  predicate Eql(h: Hasher, s: BoardState, t: BoardState)
  {
    if Hash(h, s) != Hash(h, t) then false
    else
      BagEq(s.inventory, t.inventory)
      && BagEq(s.items, t.items)
      && Sort(s.characters) == Sort(t.characters)
      && s.kaidan == t.kaidan
      && BagEq(s.traps, t.traps)
  }

  /** Two positions hold the same things, whatever the order inside each bag. */
  predicate SameContents(s: BoardState, t: BoardState)
  {
    multiset(s.inventory) == multiset(t.inventory)
    && multiset(s.items) == multiset(t.items)
    && multiset(s.characters) == multiset(t.characters)
    && s.kaidan == t.kaidan
    && multiset(s.traps) == multiset(t.traps)
  }

  /** Boards with the same contents hash alike. */
  lemma SameContentsSameHash(h: Hasher, s: BoardState, t: BoardState)
    requires SameContents(s, t)
    ensures Hash(h, s) == Hash(h, t)
  {
    XorFoldPermutation(s.inventory, t.inventory, h.item);
    XorFoldPermutation(s.items, t.items, h.item);
    XorFoldPermutation(s.characters, t.characters, h.character);
    XorFoldPermutation(s.traps, t.traps, h.trap);
    assert ComponentHashes(h, s) == ComponentHashes(h, t);
  }

  /** Board equality holds exactly when every component holds the same
      elements with the same multiplicities: the hash test never rejects
      equal boards. */
  lemma EqlIffSameContents(h: Hasher, s: BoardState, t: BoardState)
    ensures Eql(h, s, t) <==> SameContents(s, t)
  {
    BagEqIsMultisetEq(s.inventory, t.inventory);
    BagEqIsMultisetEq(s.items, t.items);
    BagEqIsMultisetEq(s.traps, t.traps);
    SortEqualIffSameMultiset(s.characters, t.characters);
    if SameContents(s, t) {
      SameContentsSameHash(h, s, t);
    }
  }

  /** Board equality is an equivalence, so it can key the search's tables. */
  lemma EqlIsEquivalence(h: Hasher, s: BoardState, t: BoardState, u: BoardState)
    ensures Eql(h, s, s)
    ensures Eql(h, s, t) ==> Eql(h, t, s)
    ensures Eql(h, s, t) && Eql(h, t, u) ==> Eql(h, s, u)
  {
    EqlIffSameContents(h, s, s);
    EqlIffSameContents(h, s, t);
    EqlIffSameContents(h, t, s);
    EqlIffSameContents(h, t, u);
    EqlIffSameContents(h, s, u);
  }

  /** `asuka_on_kaidan?` / `solved?`: the protagonist stands on the stairs. */
  function Solved(s: BoardState): (r: Result<bool>)
    ensures r.Ok? <==> AsukaOf(s).Ok?
    ensures r.Ok? ==> (r.value <==> s.kaidan.pos == AsukaOf(s).value.pos)
  {
    match AsukaOf(s)
    case Err(e) => Err(e)
    case Ok(a) => Ok(s.kaidan.pos == a.pos)
  }

  /** `unsolvable?`: the protagonist is dead. */
  function Unsolvable(s: BoardState): (r: Result<bool>)
    ensures r.Ok? <==> AsukaOf(s).Ok?
    ensures r.Ok? ==> (r.value <==> Dead(AsukaOf(s).value))
  {
    match AsukaOf(s)
    case Err(e) => Err(e)
    case Ok(a) => Ok(a.hp < 1)
  }

  function Abs(n: int): nat
  {
    if n < 0 then -n else n
  }

  /** The Chebyshev distance, the number of king moves between two cells. */
  function Chebyshev(a: Vec, b: Vec): nat
  {
    var dx := Abs(a.x - b.x);
    var dy := Abs(a.y - b.y);
    if dx < dy then dy else dx
  }

  /** `_score`: the Chebyshev distance from the protagonist to the stairs,
      less 5 when the first character of the bag faces up-left and less 5
      when no trap is left. */
  function Score(s: BoardState): (r: Result<int>)
    ensures r.Ok? <==> AsukaOf(s).Ok?
    ensures r.Ok? ==> var d := Chebyshev(s.kaidan.pos, AsukaOf(s).value.pos);
      d - 10 <= r.value <= d
    ensures r.Ok? && s.characters[0].dir != Vec(-1, -1) && |s.traps| > 0 ==>
      r.value == Chebyshev(s.kaidan.pos, AsukaOf(s).value.pos)
    ensures r.Ok? && Solved(s) == Ok(true) ==> r.value <= 0
    ensures r.Ok? ==>
      r.value == Chebyshev(s.kaidan.pos, AsukaOf(s).value.pos)
        - (if s.characters[0].dir == Vec(-1, -1) then 5 else 0) - (if |s.traps| == 0 then 5 else 0)
  {
    match AsukaOf(s)
    case Err(e) => Err(e)
    case Ok(a) =>
      var d := Chebyshev(s.kaidan.pos, a.pos);
      var d1 := if s.characters[0].dir == Vec(-1, -1) then d - 5 else d;
      Ok(if |s.traps| == 0 then d1 - 5 else d1)
  }

  /** `destroy_item!`: a floor item (one with a position) leaves `items`, a
      carried one leaves `inventory`; one occurrence each time, and the
      other collection is untouched. */
  function AfterDestroyItem(s: BoardState, item: Item): (r: BoardState)
    ensures item.pos.Some? ==> r == s.(items := Difference(s.items, [item]))
    ensures item.pos.None? ==> r == s.(inventory := DeleteFirst(s.inventory, item))
    ensures item.pos.Some? ==> multiset(r.items) == multiset(s.items) - multiset{item}
    ensures item.pos.None? ==> multiset(r.inventory) == multiset(s.inventory) - multiset{item}
  {
    if item.pos.Some? then s.(items := Difference(s.items, [item]))
    else s.(inventory := DeleteFirst(s.inventory, item))
  }

  /** `can_drop?`: false on a wall or rock, false where a floor item lies,
      true otherwise; outside the grid `Map::at` raises RangeError. */
  function CanDrop(g: Grid, s: BoardState, p: Vec): (r: Result<bool>)
    ensures r.Ok? <==> WithinBounds(g, p)
    ensures r.Err? ==> r.error == RangeError
    ensures r == Ok(true) <==> WithinBounds(g, p) && !IsWallOrRock(g[p.y][p.x]) && ItemAt(s, p).None?
  {
    match At(g, p)
    case Err(e) => Err(e)
    case Ok(c) => Ok(!IsWallOrRock(c) && ItemAt(s, p).None?)
  }

  /** A drop candidate that `item_drop` passes over: a floor item lies on it
      or it is a wall or rock. */
  predicate DropBlocked(g: Grid, s: BoardState, q: Vec)
  {
    ItemAt(s, q).Some? || (WithinBounds(g, q) && IsWallOrRock(g[q.y][q.x]))
  }

  /** The k-th drop candidate around `p`. */
  function DropCandidate(p: Vec, k: nat): Vec
    requires k < |ItemDropSeq|
  {
    Plus(p, ItemDropSeq[k])
  }

  /** `item_drop` from the k-th offset on. The trap test looks at the origin
      `p`, as written (board.rb:243), not at the candidate. */
  function ItemDropFrom(g: Grid, s: BoardState, p: Vec, k: nat): (r: Result<Option<Vec>>)
    requires k <= |ItemDropSeq|
    ensures r.Err? ==> r.error == RangeError
    decreases |ItemDropSeq| - k
  {
    if k == |ItemDropSeq| then Ok(None)
    else
      var q := DropCandidate(p, k);
      if ItemAt(s, q).Some? then ItemDropFrom(g, s, p, k + 1)
      else match At(g, q)
        case Err(e) => Err(e)
        case Ok(c) =>
          if IsWallOrRock(c) || TrapAt(s, p).Some? then ItemDropFrom(g, s, p, k + 1)
          else Ok(Some(q))
  }

  /** `item_drop`: the first of the 25 candidates around `p` that holds no
      floor item and is not a wall or rock; nil when all are taken. A
      candidate outside the grid without an item on it makes `Map::at`
      raise. */
  function ItemDropTarget(g: Grid, s: BoardState, p: Vec): (r: Result<Option<Vec>>)
  {
    ItemDropFrom(g, s, p, 0)
  }

  /** Candidate `j` is the first from `k` on that lies in the grid and is
      not blocked. */
  predicate FirstFreeFrom(g: Grid, s: BoardState, p: Vec, k: nat, j: nat)
  {
    k <= j < |ItemDropSeq| && WithinBounds(g, DropCandidate(p, j))
    && !DropBlocked(g, s, DropCandidate(p, j))
    && forall i | k <= i < j :: DropBlocked(g, s, DropCandidate(p, i))
  }

  /** A spot found from candidate `k` on is candidate `k` itself, free, or
      lies further on past a blocked candidate `k`; either way the origin
      holds no trap. */
  lemma ItemDropFromTakes(g: Grid, s: BoardState, p: Vec, k: nat)
    requires k < |ItemDropSeq|
    requires ItemDropFrom(g, s, p, k).Ok? && ItemDropFrom(g, s, p, k).value.Some?
    ensures TrapAt(s, p).None?
    ensures
      || (ItemDropFrom(g, s, p, k).value.value == DropCandidate(p, k)
          && WithinBounds(g, DropCandidate(p, k)) && !DropBlocked(g, s, DropCandidate(p, k)))
      || (DropBlocked(g, s, DropCandidate(p, k)) && ItemDropFrom(g, s, p, k + 1) == ItemDropFrom(g, s, p, k))
  {
    if TrapAt(s, p).Some? {
      ItemDropFromWithTrapAtOrigin(g, s, p, k);
      assert false;
    }
    var q := DropCandidate(p, k);
    if ItemAt(s, q).None? && WithinBounds(g, q) && !IsWallOrRock(g[q.y][q.x]) {
      assert ItemDropFrom(g, s, p, k) == Ok(Some(q));
    }
  }

  /** A spot found is the first free candidate from `k` on, and it is found
      only when the origin holds no trap. */
  lemma {:induction false} ItemDropFromFound(g: Grid, s: BoardState, p: Vec, k: nat) returns (j: nat)
    requires k <= |ItemDropSeq|
    requires ItemDropFrom(g, s, p, k).Ok? && ItemDropFrom(g, s, p, k).value.Some?
    ensures TrapAt(s, p).None?
    ensures FirstFreeFrom(g, s, p, k, j) && ItemDropFrom(g, s, p, k).value.value == DropCandidate(p, j)
    decreases |ItemDropSeq| - k
  {
    ItemDropFromTakes(g, s, p, k);
    var q := DropCandidate(p, k);
    if ItemDropFrom(g, s, p, k).value.value == q && WithinBounds(g, q) && !DropBlocked(g, s, q) {
      j := k;
    } else {
      j := ItemDropFromFound(g, s, p, k + 1);
      forall i | k <= i < j ensures DropBlocked(g, s, DropCandidate(p, i)) {
        if i > k {
          assert k + 1 <= i < j;
        }
      }
    }
  }

  /** With no trap on the origin, nil from candidate `k` on means candidate
      `k` is blocked and nil from the next one on. */
  lemma ItemDropFromSkips(g: Grid, s: BoardState, p: Vec, k: nat)
    requires k < |ItemDropSeq| && TrapAt(s, p).None?
    requires ItemDropFrom(g, s, p, k) == Ok(None)
    ensures DropBlocked(g, s, DropCandidate(p, k))
    ensures ItemDropFrom(g, s, p, k + 1) == Ok(None)
  {
  }

  /** With no trap on the origin, nil from candidate `k` on means every
      candidate `i` from `k` on is blocked. */
  lemma {:induction false} ItemDropFromNoneAt(g: Grid, s: BoardState, p: Vec, k: nat, i: nat)
    requires k <= i < |ItemDropSeq| && TrapAt(s, p).None?
    requires ItemDropFrom(g, s, p, k) == Ok(None)
    ensures DropBlocked(g, s, DropCandidate(p, i))
    decreases i - k
  {
    ItemDropFromSkips(g, s, p, k);
    if k < i {
      ItemDropFromNoneAt(g, s, p, k + 1, i);
    }
  }

  /** nil means a trap on the origin, or every remaining candidate blocked. */
  lemma ItemDropFromNone(g: Grid, s: BoardState, p: Vec, k: nat)
    requires k <= |ItemDropSeq|
    requires ItemDropFrom(g, s, p, k) == Ok(None)
    ensures TrapAt(s, p).Some? || forall i | k <= i < |ItemDropSeq| :: DropBlocked(g, s, DropCandidate(p, i))
  {
    if TrapAt(s, p).None? {
      forall i | k <= i < |ItemDropSeq| ensures DropBlocked(g, s, DropCandidate(p, i)) {
        ItemDropFromNoneAt(g, s, p, k, i);
      }
    }
  }

  /** As written, a trap on the origin cell makes every drop fail. */
  lemma {:induction false} ItemDropFromWithTrapAtOrigin(g: Grid, s: BoardState, p: Vec, k: nat)
    requires k <= |ItemDropSeq|
    requires TrapAt(s, p).Some?
    ensures ItemDropFrom(g, s, p, k).Ok? ==> ItemDropFrom(g, s, p, k).value.None?
    decreases |ItemDropSeq| - k
  {
    if k < |ItemDropSeq| {
      ItemDropFromWithTrapAtOrigin(g, s, p, k + 1);
    }
  }

  /** `CHARA_RAKKA_TABLE`: for each facing, the 17 offsets a displaced
      character tries: the origin, the first ring, then the second ring. */
  function CharaRakkaTable(dir: Vec): Option<seq<Vec>>
  {
    if dir == Vec(0, -1) then Some([Vec(0, 0)]
      + [Vec(1, 0), Vec(1, 1), Vec(0, 1), Vec(-1, 1), Vec(-1, 0), Vec(-1, -1), Vec(0, -1), Vec(1, -1)]
      + [Vec(2, 0), Vec(2, 2), Vec(0, 2), Vec(-2, 2), Vec(-2, 0), Vec(-2, -2), Vec(0, -2), Vec(2, -2)])
    else if dir == Vec(1, -1) then Some([Vec(0, 0)]
      + [Vec(1, 1), Vec(0, 1), Vec(-1, 1), Vec(-1, 0), Vec(-1, -1), Vec(0, -1), Vec(1, -1), Vec(1, 0)]
      + [Vec(2, 2), Vec(0, 2), Vec(-2, 2), Vec(-2, 0), Vec(-2, -2), Vec(0, -2), Vec(2, -2), Vec(2, 0)])
    else if dir == Vec(1, 0) then Some([Vec(0, 0)]
      + [Vec(0, 1), Vec(-1, 1), Vec(-1, 0), Vec(-1, -1), Vec(0, -1), Vec(1, -1), Vec(1, 0), Vec(1, 1)]
      + [Vec(0, 2), Vec(-2, 2), Vec(-2, 0), Vec(-2, -2), Vec(0, -2), Vec(2, -2), Vec(2, 0), Vec(2, 2)])
    else if dir == Vec(1, 1) then Some([Vec(0, 0)]
      + [Vec(-1, 1), Vec(-1, 0), Vec(-1, -1), Vec(0, -1), Vec(1, -1), Vec(1, 0), Vec(1, 1), Vec(0, 1)]
      + [Vec(-2, 2), Vec(-2, 0), Vec(-2, -2), Vec(0, -2), Vec(2, -2), Vec(2, 0), Vec(2, 2), Vec(0, 2)])
    else if dir == Vec(0, 1) then Some([Vec(0, 0)]
      + [Vec(-1, 0), Vec(-1, -1), Vec(0, -1), Vec(1, -1), Vec(1, 0), Vec(1, 1), Vec(0, 1), Vec(-1, 1)]
      + [Vec(-2, 0), Vec(-2, -2), Vec(0, -2), Vec(2, -2), Vec(2, 0), Vec(2, 2), Vec(0, 2), Vec(-2, 2)])
    else if dir == Vec(-1, 1) then Some([Vec(0, 0)]
      + [Vec(-1, -1), Vec(0, -1), Vec(1, -1), Vec(1, 0), Vec(1, 1), Vec(0, 1), Vec(-1, 1), Vec(-1, 0)]
      + [Vec(-2, -2), Vec(0, -2), Vec(2, -2), Vec(2, 0), Vec(2, 2), Vec(0, 2), Vec(-2, 2), Vec(-2, 0)])
    else if dir == Vec(-1, 0) then Some([Vec(0, 0)]
      + [Vec(0, -1), Vec(1, -1), Vec(1, 0), Vec(1, 1), Vec(0, 1), Vec(-1, 1), Vec(-1, 0), Vec(-1, -1)]
      + [Vec(0, -2), Vec(2, -2), Vec(2, 0), Vec(2, 2), Vec(0, 2), Vec(-2, 2), Vec(-2, 0), Vec(-2, -2)])
    else if dir == Vec(-1, -1) then Some([Vec(0, 0)]
      + [Vec(1, -1), Vec(1, 0), Vec(1, 1), Vec(0, 1), Vec(-1, 1), Vec(-1, 0), Vec(-1, -1), Vec(0, -1)]
      + [Vec(2, -2), Vec(2, 0), Vec(2, 2), Vec(0, 2), Vec(-2, 2), Vec(-2, 0), Vec(-2, -2), Vec(0, -2)])
    else None
  }

  /** The origin, then eight distinct first-ring offsets, then eight
      distinct second-ring offsets. */
  predicate RingShaped(row: seq<Vec>)
  {
    |row| == 17 && row[0] == Vec(0, 0)
    && (forall i | 1 <= i <= 8 :: Chebyshev(row[i], Vec(0, 0)) == 1)
    && (forall i | 9 <= i <= 16 :: Chebyshev(row[i], Vec(0, 0)) == 2)
    && (forall i, j | 0 <= i < j < 17 :: row[i] != row[j])
  }

  function Scale(v: Vec, n: int): Vec
  {
    Vec(n * v.x, n * v.y)
  }

  /** The eight neighbours clockwise, starting a quarter turn right of the
      facing `Compass[k]`. */
  function Around(k: nat): (r: seq<Vec>)
    requires k < 8
    ensures |r| == 8
  {
    var n := (k + 2) % 8;
    (Compass + Compass)[n .. n + 8]
  }

  function Doubled(s: seq<Vec>): (r: seq<Vec>)
    ensures |r| == |s|
    ensures forall i | 0 <= i < |s| :: r[i] == Scale(s[i], 2)
  {
    seq(|s|, i requires 0 <= i < |s| => Scale(s[i], 2))
  }

  /** The landing order for a character facing `Compass[k]`: its own cell,
      the neighbours clockwise from a quarter turn right of the facing, then
      the cells two steps out in the same order. */
  function RakkaRow(k: nat): (r: seq<Vec>)
    requires k < 8
  {
    [Vec(0, 0)] + Around(k) + Doubled(Around(k))
  }

  /** The neighbours in `Around(k)` are the eight compass directions, each
      once. */
  lemma AroundIsCompass(k: nat)
    requires k < 8
    ensures forall i | 0 <= i < 8 :: IsCompassDir(Around(k)[i])
    ensures forall i, j | 0 <= i < j < 8 :: Around(k)[i] != Around(k)[j]
  {
    var a := Around(k);
    var n := (k + 2) % 8;
    forall i, j | 0 <= i < j < 8 ensures a[i] != a[j] {
      AroundAt(k, i);
      AroundAt(k, j);
      ModEightDistinct(n, i, j);
      CompassIsDistinct();
    }
    forall i | 0 <= i < 8 ensures IsCompassDir(a[i]) {
      CompassIsAllDirections(a[i]);
    }
  }

  /** Neighbour `i` of row `k` is the compass direction `i` steps on from
      `k + 2`. */
  lemma AroundAt(k: nat, i: nat)
    requires k < 8 && i < 8
    ensures Around(k)[i] == Compass[((k + 2) % 8 + i) % 8]
  {
    var n := (k + 2) % 8;
    assert Around(k)[i] == (Compass + Compass)[n + i];
    if n + i >= 8 {
      assert (n + i) % 8 == n + i - 8;
      assert (Compass + Compass)[n + i] == Compass[n + i - 8];
    } else {
      assert (n + i) % 8 == n + i;
      assert (Compass + Compass)[n + i] == Compass[n + i];
    }
  }

  lemma ModEightDistinct(n: nat, i: nat, j: nat)
    requires n < 8 && i < j < 8
    ensures (n + i) % 8 != (n + j) % 8
  {
  }

  /** Every clockwise row is ring-shaped. */
  lemma RakkaRowIsRingShaped(k: nat)
    requires k < 8
    ensures RingShaped(RakkaRow(k))
  {
    var a := Around(k);
    var r := RakkaRow(k);
    AroundIsCompass(k);
    assert |r| == 17;
    forall i | 1 <= i <= 8 ensures r[i] == a[i - 1] {
    }
    forall i | 9 <= i <= 16 ensures r[i] == Scale(a[i - 9], 2) {
    }
    forall i, j | 0 <= i < j < 17 ensures r[i] != r[j] {
      if 9 <= i {
        assert a[i - 9] != a[j - 9];
      }
    }
  }

  /** Each row of the table, as written out, is the clockwise row for its
      facing. */
  lemma RakkaRowAt(k: nat)
    requires k < 8
    ensures CharaRakkaTable(Compass[k]) == Some(RakkaRow(k))
  {
    if k == 0 {
      RakkaRow0();
    } else if k == 1 {
      RakkaRow1();
    } else if k == 2 {
      RakkaRow2();
    } else if k == 3 {
      RakkaRow3();
    } else if k == 4 {
      RakkaRow4();
    } else if k == 5 {
      RakkaRow5();
    } else if k == 6 {
      RakkaRow6();
    } else if k == 7 {
      RakkaRow7();
    }
  }

  lemma RakkaRow0()
    ensures CharaRakkaTable(Vec(0, -1)) == Some(RakkaRow(0))
  {
    assert Around(0) == (Compass + Compass)[2 .. 10] == [Vec(1, 0), Vec(1, 1), Vec(0, 1), Vec(-1, 1), Vec(-1, 0), Vec(-1, -1), Vec(0, -1), Vec(1, -1)];
    assert Doubled(Around(0)) == [Vec(2, 0), Vec(2, 2), Vec(0, 2), Vec(-2, 2), Vec(-2, 0), Vec(-2, -2), Vec(0, -2), Vec(2, -2)];
  }

  lemma RakkaRow1()
    ensures CharaRakkaTable(Vec(1, -1)) == Some(RakkaRow(1))
  {
    assert Around(1) == (Compass + Compass)[3 .. 11] == [Vec(1, 1), Vec(0, 1), Vec(-1, 1), Vec(-1, 0), Vec(-1, -1), Vec(0, -1), Vec(1, -1), Vec(1, 0)];
    assert Doubled(Around(1)) == [Vec(2, 2), Vec(0, 2), Vec(-2, 2), Vec(-2, 0), Vec(-2, -2), Vec(0, -2), Vec(2, -2), Vec(2, 0)];
  }

  lemma RakkaRow2()
    ensures CharaRakkaTable(Vec(1, 0)) == Some(RakkaRow(2))
  {
    assert Around(2) == (Compass + Compass)[4 .. 12] == [Vec(0, 1), Vec(-1, 1), Vec(-1, 0), Vec(-1, -1), Vec(0, -1), Vec(1, -1), Vec(1, 0), Vec(1, 1)];
    assert Doubled(Around(2)) == [Vec(0, 2), Vec(-2, 2), Vec(-2, 0), Vec(-2, -2), Vec(0, -2), Vec(2, -2), Vec(2, 0), Vec(2, 2)];
  }

  lemma RakkaRow3()
    ensures CharaRakkaTable(Vec(1, 1)) == Some(RakkaRow(3))
  {
    assert Around(3) == (Compass + Compass)[5 .. 13] == [Vec(-1, 1), Vec(-1, 0), Vec(-1, -1), Vec(0, -1), Vec(1, -1), Vec(1, 0), Vec(1, 1), Vec(0, 1)];
    assert Doubled(Around(3)) == [Vec(-2, 2), Vec(-2, 0), Vec(-2, -2), Vec(0, -2), Vec(2, -2), Vec(2, 0), Vec(2, 2), Vec(0, 2)];
  }

  lemma RakkaRow4()
    ensures CharaRakkaTable(Vec(0, 1)) == Some(RakkaRow(4))
  {
    assert Around(4) == (Compass + Compass)[6 .. 14] == [Vec(-1, 0), Vec(-1, -1), Vec(0, -1), Vec(1, -1), Vec(1, 0), Vec(1, 1), Vec(0, 1), Vec(-1, 1)];
    assert Doubled(Around(4)) == [Vec(-2, 0), Vec(-2, -2), Vec(0, -2), Vec(2, -2), Vec(2, 0), Vec(2, 2), Vec(0, 2), Vec(-2, 2)];
  }

  lemma RakkaRow5()
    ensures CharaRakkaTable(Vec(-1, 1)) == Some(RakkaRow(5))
  {
    assert Around(5) == (Compass + Compass)[7 .. 15] == [Vec(-1, -1), Vec(0, -1), Vec(1, -1), Vec(1, 0), Vec(1, 1), Vec(0, 1), Vec(-1, 1), Vec(-1, 0)];
    assert Doubled(Around(5)) == [Vec(-2, -2), Vec(0, -2), Vec(2, -2), Vec(2, 0), Vec(2, 2), Vec(0, 2), Vec(-2, 2), Vec(-2, 0)];
  }

  lemma RakkaRow6()
    ensures CharaRakkaTable(Vec(-1, 0)) == Some(RakkaRow(6))
  {
    assert Around(6) == (Compass + Compass)[0 .. 8] == [Vec(0, -1), Vec(1, -1), Vec(1, 0), Vec(1, 1), Vec(0, 1), Vec(-1, 1), Vec(-1, 0), Vec(-1, -1)];
    assert Doubled(Around(6)) == [Vec(0, -2), Vec(2, -2), Vec(2, 0), Vec(2, 2), Vec(0, 2), Vec(-2, 2), Vec(-2, 0), Vec(-2, -2)];
  }

  lemma RakkaRow7()
    ensures CharaRakkaTable(Vec(-1, -1)) == Some(RakkaRow(7))
  {
    assert Around(7) == (Compass + Compass)[1 .. 9] == [Vec(1, -1), Vec(1, 0), Vec(1, 1), Vec(0, 1), Vec(-1, 1), Vec(-1, 0), Vec(-1, -1), Vec(0, -1)];
    assert Doubled(Around(7)) == [Vec(2, -2), Vec(2, 0), Vec(2, 2), Vec(0, 2), Vec(-2, 2), Vec(-2, 0), Vec(-2, -2), Vec(0, -2)];
  }

  /** The table has a row exactly for the eight facings, and the row for
      `Compass[k]` is the clockwise row `RakkaRow(k)`. */
  lemma CharaRakkaTableIsClockwise(dir: Vec)
    ensures CharaRakkaTable(dir).Some? <==> IsCompassDir(dir)
    ensures forall k | 0 <= k < 8 && dir == Compass[k] :: CharaRakkaTable(dir) == Some(RakkaRow(k))
  {
    CompassIsAllDirections(dir);
    forall k | 0 <= k < 8 && dir == Compass[k] ensures CharaRakkaTable(dir) == Some(RakkaRow(k)) {
      RakkaRowAt(k);
    }
  }

  /** Every row of the table is ring-shaped. */
  lemma CharaRakkaTableShape(dir: Vec)
    ensures CharaRakkaTable(dir).Some? ==> RingShaped(CharaRakkaTable(dir).value)
  {
    CharaRakkaTableIsClockwise(dir);
    CompassIsAllDirections(dir);
    if CharaRakkaTable(dir).Some? {
      var k :| 0 <= k < 8 && Compass[k] == dir;
      RakkaRowIsRingShaped(k);
    }
  }

  /** A landing spot `character_drop` refuses: a character stands there, or
      it is a wall, rock or water. */
  predicate LandingBlocked(g: Grid, s: BoardState, q: Vec)
  {
    |CharactersAt(s.characters, q)| > 0
    || (WithinBounds(g, q) && (IsWallOrRock(g[q.y][q.x]) || g[q.y][q.x] == Water))
  }

  function CharacterDropFrom(g: Grid, s: BoardState, p: Vec, offsets: seq<Vec>, k: nat): (r: Result<Vec>)
    requires k <= |offsets|
    ensures r.Err? ==> r.error == NoLandingSpot || r.error == RangeError
    ensures r.Ok? ==> exists j | k <= j < |offsets| ::
      r.value == Plus(p, offsets[j]) && WithinBounds(g, r.value) && !LandingBlocked(g, s, r.value)
      && forall i | k <= i < j :: LandingBlocked(g, s, Plus(p, offsets[i]))
    ensures r.Err? && r.error == NoLandingSpot ==> forall i | k <= i < |offsets| :: LandingBlocked(g, s, Plus(p, offsets[i]))
    decreases |offsets| - k
  {
    if k == |offsets| then Err(NoLandingSpot)
    else
      var q := Plus(p, offsets[k]);
      if |CharactersAt(s.characters, q)| > 0 then CharacterDropFrom(g, s, p, offsets, k + 1)
      else match At(g, q)
        case Err(e) => Err(e)
        case Ok(c) =>
          if IsWallOrRock(c) || c == Water then CharacterDropFrom(g, s, p, offsets, k + 1)
          else Ok(q)
  }

  /** `character_drop`: the first offset of the facing's row whose cell has
      no character and is not a wall, rock or water; raises when none
      qualifies, when the facing has no row (nil has no `map`), or when a
      candidate outside the grid reaches `Map::at`. */
  function CharacterDrop(g: Grid, s: BoardState, p: Vec, dir: Vec): (r: Result<Vec>)
    ensures CharaRakkaTable(dir).None? ==> r == Err(NoMethodError)
    ensures r.Ok? ==> (WithinBounds(g, r.value) && !LandingBlocked(g, s, r.value)
      && Chebyshev(r.value, p) <= 2)
  {
    match CharaRakkaTable(dir)
    case None => Err(NoMethodError)
    case Some(offsets) =>
      CharaRakkaTableShape(dir);
      var r := CharacterDropFrom(g, s, p, offsets, 0);
      assert forall i | 0 <= i < |offsets| :: Chebyshev(Plus(p, offsets[i]), p) == Chebyshev(offsets[i], Vec(0, 0));
      r
  }

  /** The game position as an object; the terrain never changes. */
  class Board {
    const grid: Grid
    var inventory: seq<Item>
    var items: seq<Item>
    var characters: seq<Character>
    var kaidan: Kaidan
    var traps: seq<Trap>

    /** The five components as one value. */
    function State(): BoardState
      reads this
    {
      BoardState(inventory, items, characters, kaidan, traps)
    }

    /** `Board.new(map, inventory, items, characters, kaidan, traps)`. */
    constructor (grid: Grid, s: BoardState)
      ensures this.grid == grid && State() == s
    {
      this.grid := grid;
      inventory := s.inventory;
      items := s.items;
      characters := s.characters;
      kaidan := s.kaidan;
      traps := s.traps;
    }

    /** `deep_copy`: a new board equal to this one and independent of it. */
    method DeepCopy() returns (c: Board)
      ensures fresh(c)
      ensures c.grid == grid && c.State() == State()
    {
      c := new Board(grid, State());
    }

    /** The component setters `inventory=`, `items=`, `characters=`,
        `kaidan=` and `traps=`, all at once. Their run-time type checks are
        the static types here. */
    method SetComponents(st: BoardState)
      modifies this
      ensures State() == st
    {
      inventory, items, characters, kaidan, traps := st.inventory, st.items, st.characters, st.kaidan, st.traps;
    }

    /** `destroy_item!`. */
    method DestroyItem(item: Item)
      modifies this
      ensures State() == AfterDestroyItem(old(State()), item)
    {
      if item.pos.Some? {
        items := Difference(items, [item]);
      } else {
        inventory := DeleteFirst(inventory, item);
      }
    }

    /** `item_drop`: walk the drop sequence and return the first free
        candidate. */
    method ItemDrop(p: Vec) returns (r: Result<Option<Vec>>)
      ensures r == ItemDropTarget(grid, State(), p)
    {
      ghost var st := State();
      var trapHere := TrapAtIn(traps, p).Some?;
      var k := 0;
      while k < |ItemDropSeq|
        invariant 0 <= k <= |ItemDropSeq|
        invariant ItemDropTarget(grid, st, p) == ItemDropFrom(grid, st, p, k)
      {
        var q := Plus(p, ItemDropSeq[k]);
        assert q == DropCandidate(p, k);
        if ItemIndexAt(items, q).None? {
          assert ItemAt(st, q).None?;
          var cell := At(grid, q);
          if cell.Err? {
            return Err(cell.error);
          }
          if !IsWallOrRock(cell.value) && !trapHere {
            return Ok(Some(q));
          }
        }
        k := k + 1;
      }
      return Ok(None);
    }
  }
}
