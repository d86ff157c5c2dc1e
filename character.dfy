/** The `Character` record of character.rb (name, position, facing, hit
    points), its constructor table, `dead?`, `<=>`, and the sorted order in
    which Board equality compares character collections. */
module Characters {
  import opened Results
  import opened Geometry
  import opened Ordering

  datatype Character = Character(name: string, pos: Vec, dir: Vec, hp: int)

  const Asuka: string := "アスカ"
  const Ushiwakamaru: string := "うしわか丸"

  /** `ATTRS`: the starting hit points and whether the character reflects
      thrown items. */
  function Attrs(name: string): Option<(int, bool)>
  {
    if name == Ushiwakamaru then Some((10, true))
    else if name == Asuka then Some((15, false))
    else None
  }

  /** `Character.new`: hit points from the table; any other name raises
      ArgumentError. */
  function New(name: string, pos: Vec, dir: Vec): (r: Result<Character>)
    ensures r.Ok? <==> name == Asuka || name == Ushiwakamaru
    ensures r.Err? ==> r.error == ArgumentError
    ensures r.Ok? ==> r.value.name == name && r.value.pos == pos && r.value.dir == dir
    ensures r.Ok? && name == Asuka ==> r.value.hp == 15
    ensures r.Ok? && name == Ushiwakamaru ==> r.value.hp == 10
  {
    match Attrs(name)
    case None => Err(ArgumentError)
    case Some(attrs) => Ok(Character(name, pos, dir, attrs.0))
  }

  /** `dead?`: fewer than one hit point. */
  predicate Dead(c: Character)
  {
    c.hp < 1
  }

  /** A freshly made character is alive. */
  lemma NewIsAlive(name: string, pos: Vec, dir: Vec)
    requires New(name, pos, dir).Ok?
    ensures !Dead(New(name, pos, dir).value)
  {
  }

  /** `Character#<=>`: `[name, pos, dir, hp]` compared lexicographically. */
  function Compare(a: Character, b: Character): (r: int)
    ensures -1 <= r <= 1
  {
    Lex(CompareString(a.name, b.name), Lex(CompareVec(a.pos, b.pos), Lex(CompareVec(a.dir, b.dir), CompareInt(a.hp, b.hp))))
  }

  /** The comparison is 0 exactly on equal characters, swapping negates it, and
      it is transitive: a total order. */
  lemma CompareIsTotalOrder(a: Character, b: Character, c: Character)
    ensures Compare(a, b) == 0 <==> a == b
    ensures Compare(b, a) == -Compare(a, b)
    ensures Compare(a, b) <= 0 && Compare(b, c) <= 0 ==> Compare(a, c) <= 0
  {
    CompareStringZero(a.name, b.name);
    CompareStringZero(b.name, c.name);
    CompareStringZero(a.name, c.name);
    CompareStringAntisymmetric(a.name, b.name);
    CompareStringAntisymmetric(b.name, c.name);
    CompareVecIsOrder(a.pos, b.pos, c.pos);
    CompareVecIsOrder(a.dir, b.dir, c.dir);
    if CompareString(a.name, b.name) <= 0 && CompareString(b.name, c.name) <= 0 {
      CompareStringTransitive(a.name, b.name, c.name);
    }
  }

  predicate Le(a: Character, b: Character)
  {
    Compare(a, b) <= 0
  }

  predicate Sorted(s: seq<Character>)
  {
    forall i, j :: 0 <= i < j < |s| ==> Le(s[i], s[j])
  }

  /** An element no greater than every element of a sorted sequence can lead it. */
  lemma SortedCons(y: Character, s: seq<Character>)
    requires Sorted(s)
    requires forall e | e in multiset(s) :: Le(y, e)
    ensures Sorted([y] + s)
  {
    forall i, j | 0 <= i < j < |[y] + s| ensures Le(([y] + s)[i], ([y] + s)[j]) {
      if i == 0 {
        assert s[j - 1] in multiset(s);
      }
    }
  }

  /** `x` no greater than the head of a sorted sequence can lead it. */
  lemma InsertFront(x: Character, s: seq<Character>)
    requires Sorted(s) && |s| > 0 && Le(x, s[0])
    ensures Sorted([x] + s)
  {
    forall e | e in multiset(s) ensures Le(x, e) {
      var j :| 0 <= j < |s| && s[j] == e;
      CompareIsTotalOrder(x, s[0], s[j]);
    }
    SortedCons(x, s);
  }

  /** The head of a sorted sequence can lead its tail with `x` added, when
      `x` is greater than it. */
  lemma InsertBehind(x: Character, s: seq<Character>, rest: seq<Character>)
    requires Sorted(s) && |s| > 0 && !Le(x, s[0])
    requires Sorted(rest) && multiset(rest) == multiset(s[1..]) + multiset{x}
    ensures Sorted([s[0]] + rest)
  {
    CompareIsTotalOrder(x, s[0], x);
    forall e | e in multiset(rest) ensures Le(s[0], e) {
      if e != x {
        assert e in multiset(s[1..]);
        var j :| 0 <= j < |s[1..]| && s[1..][j] == e;
        assert s[1..][j] == s[j + 1];
      }
    }
    SortedCons(s[0], rest);
  }

  /** Insert `x` before the first element it does not exceed. */
  function Insert(x: Character, s: seq<Character>): (r: seq<Character>)
    requires Sorted(s)
    ensures Sorted(r)
    ensures multiset(r) == multiset(s) + multiset{x}
  {
    if |s| == 0 then [x]
    else if Le(x, s[0]) then
      InsertFront(x, s);
      [x] + s
    else
      SortedTail(s);
      var rest := Insert(x, s[1..]);
      assert s == [s[0]] + s[1..];
      InsertBehind(x, s, rest);
      [s[0]] + rest
  }

  /** `to_a.sort`: the characters in ascending `<=>` order. */
  function Sort(s: seq<Character>): (r: seq<Character>)
    ensures Sorted(r)
    ensures multiset(r) == multiset(s)
  {
    if |s| == 0 then []
    else
      assert s == [s[0]] + s[1..];
      Insert(s[0], Sort(s[1..]))
  }

  /** The head of a sorted sequence is no greater than any of its elements. */
  lemma HeadIsLeast(a: seq<Character>, e: Character)
    requires Sorted(a) && e in multiset(a)
    ensures Le(a[0], e)
  {
    var i :| 0 <= i < |a| && a[i] == e;
    if i == 0 {
      CompareIsTotalOrder(e, e, e);
    }
  }

  lemma SortedTail(a: seq<Character>)
    requires Sorted(a) && |a| > 0
    ensures Sorted(a[1..])
  {
    forall i, j | 0 <= i < j < |a[1..]| ensures Le(a[1..][i], a[1..][j]) {
      assert a[1..][i] == a[i + 1] && a[1..][j] == a[j + 1];
    }
  }

  /** Two sorted arrangements of one multiset start with the same element. */
  lemma SortedHeads(a: seq<Character>, b: seq<Character>)
    requires Sorted(a) && Sorted(b) && |a| > 0 && |b| > 0
    requires multiset(a) == multiset(b)
    ensures a[0] == b[0]
  {
    assert b[0] in multiset(a) && a[0] in multiset(b);
    HeadIsLeast(a, b[0]);
    HeadIsLeast(b, a[0]);
    CompareIsTotalOrder(a[0], b[0], a[0]);
  }

  /** Removing a shared head leaves equal multisets. */
  lemma TailsSameMultiset(a: seq<Character>, b: seq<Character>)
    requires |a| > 0 && |b| > 0 && a[0] == b[0]
    requires multiset(a) == multiset(b)
    ensures multiset(a[1..]) == multiset(b[1..])
  {
    assert a == [a[0]] + a[1..] && b == [b[0]] + b[1..];
    assert multiset(a[1..]) == multiset(a) - multiset{a[0]};
    assert multiset(b[1..]) == multiset(b) - multiset{b[0]};
  }

  /** A sorted arrangement of a multiset is unique, since the order is total. */
  lemma {:induction false} SortedUnique(a: seq<Character>, b: seq<Character>)
    requires Sorted(a) && Sorted(b)
    requires multiset(a) == multiset(b)
    ensures a == b
    decreases |a|
  {
    assert |a| == |multiset(a)| == |multiset(b)| == |b|;
    if |a| > 0 {
      SortedHeads(a, b);
      TailsSameMultiset(a, b);
      SortedTail(a);
      SortedTail(b);
      SortedUnique(a[1..], b[1..]);
      assert a == [a[0]] + a[1..] && b == [b[0]] + b[1..];
    }
  }

  /** Comparing sorted copies, as Board equality does, decides exactly
      whether the two collections hold the same characters. */
  lemma SortEqualIffSameMultiset(a: seq<Character>, b: seq<Character>)
    ensures Sort(a) == Sort(b) <==> multiset(a) == multiset(b)
  {
    if multiset(a) == multiset(b) {
      SortedUnique(Sort(a), Sort(b));
    }
  }
}
