/** Ruby's three-way comparison `<=>` on the values the solver compares:
    integers, strings (character by character; for UTF-8 text the byte order
    Ruby uses agrees with code-point order) and `[x, y]` pairs, and the
    lexicographic combination `Array#<=>` applies to a record's fields. */
module Ordering {
  import opened Geometry

  /** `Integer#<=>`. */
  function CompareInt(a: int, b: int): (r: int)
    ensures r == 0 <==> a == b
    ensures r < 0 <==> a < b
    ensures r > 0 <==> a > b
    ensures -1 <= r <= 1
  {
    if a < b then -1 else if a > b then 1 else 0
  }

  /** `Array#<=>` once the first fields compared: the first non-zero result. */
  function Lex(first: int, rest: int): int
  {
    if first != 0 then first else rest
  }

  /** `String#<=>`: lexicographic, a proper prefix sorts first. */
  function CompareString(a: string, b: string): (r: int)
    ensures -1 <= r <= 1
  {
    if |a| == 0 && |b| == 0 then 0
    else if |a| == 0 then -1
    else if |b| == 0 then 1
    else if a[0] < b[0] then -1
    else if a[0] > b[0] then 1
    else CompareString(a[1..], b[1..])
  }

  /** `String#<=>` is 0 exactly on equal strings. */
  lemma {:induction false} CompareStringZero(a: string, b: string)
    ensures CompareString(a, b) == 0 <==> a == b
    decreases |a|
  {
    if |a| > 0 && |b| > 0 && a[0] == b[0] {
      CompareStringZero(a[1..], b[1..]);
      assert a == [a[0]] + a[1..] && b == [b[0]] + b[1..];
    }
  }

  /** Swapping the operands negates the result. */
  lemma {:induction false} CompareStringAntisymmetric(a: string, b: string)
    ensures CompareString(b, a) == -CompareString(a, b)
    decreases |a|
  {
    if |a| > 0 && |b| > 0 && a[0] == b[0] {
      CompareStringAntisymmetric(a[1..], b[1..]);
    }
  }

  /** The order on strings is transitive. */
  lemma {:induction false} CompareStringTransitive(a: string, b: string, c: string)
    requires CompareString(a, b) <= 0 && CompareString(b, c) <= 0
    ensures CompareString(a, c) <= 0
    decreases |a|
  {
    if |a| > 0 && |b| > 0 && |c| > 0 && a[0] == b[0] && b[0] == c[0] {
      CompareStringTransitive(a[1..], b[1..], c[1..]);
    }
  }

  /** `[x, y] <=> [x', y']`. */
  function CompareVec(a: Vec, b: Vec): (r: int)
    ensures r == 0 <==> a == b
    ensures -1 <= r <= 1
  {
    Lex(CompareInt(a.x, b.x), CompareInt(a.y, b.y))
  }

  /** Coordinates are ordered by x, then y; swapping negates, and the order is
      transitive. */
  lemma CompareVecIsOrder(a: Vec, b: Vec, c: Vec)
    ensures CompareVec(b, a) == -CompareVec(a, b)
    ensures CompareVec(a, b) <= 0 && CompareVec(b, c) <= 0 ==> CompareVec(a, c) <= 0
  {
  }
}
