/** The `Item` record of item.rb: a name, a charge count (nil for items
    without one) and a floor position (nil while carried). */
module Items {
  import opened Results
  import opened Geometry
  import opened Ordering

  datatype Item = Item(name: string, number: Option<int>, pos: Option<Vec>)

  const WandBashogae: string := "場所替えの杖"
  const WandFukitobashi: string := "ふきとばしの杖"
  const WandHikiyose: string := "引きよせの杖"
  const HerbZassou: string := "雑草"

  /** `nil <=> nil` is 0, two integers compare as integers, and an integer
      against nil is incomparable (None). */
  function CompareOptionInt(a: Option<int>, b: Option<int>): Option<int>
  {
    match (a, b)
    case (None, None) => Some(0)
    case (Some(x), Some(y)) => Some(CompareInt(x, y))
    case _ => None
  }

  function CompareOptionVec(a: Option<Vec>, b: Option<Vec>): Option<int>
  {
    match (a, b)
    case (None, None) => Some(0)
    case (Some(x), Some(y)) => Some(CompareVec(x, y))
    case _ => None
  }

  /** `Item#<=>`: `[name, number, pos] <=> [other.name, other.number,
      other.pos]`. The first field that differs decides; a nil met against a
      non-nil before that makes the whole comparison nil (None). */
  function Compare(a: Item, b: Item): (r: Option<int>)
    ensures r == Some(0) <==> a == b
    ensures r.Some? ==> -1 <= r.value <= 1
    ensures CompareString(a.name, b.name) != 0 ==> r == Some(CompareString(a.name, b.name))
  {
    CompareStringZero(a.name, b.name);
    var byName := CompareString(a.name, b.name);
    if byName != 0 then Some(byName)
    else match CompareOptionInt(a.number, b.number)
      case None => None
      case Some(byNumber) =>
        if byNumber != 0 then Some(byNumber)
        else CompareOptionVec(a.pos, b.pos)
  }

  /** Swapping the operands negates the result, and incomparability is
      symmetric. */
  lemma CompareAntisymmetric(a: Item, b: Item)
    ensures Compare(b, a).Some? <==> Compare(a, b).Some?
    ensures Compare(a, b).Some? ==> Compare(b, a).value == -Compare(a, b).value
  {
    CompareStringAntisymmetric(a.name, b.name);
    CompareStringZero(a.name, b.name);
    if a.pos.Some? && b.pos.Some? {
      CompareVecIsOrder(a.pos.value, b.pos.value, a.pos.value);
    }
  }
}
