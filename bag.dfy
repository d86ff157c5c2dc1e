/** The order-insensitive collection (bag.rb) that every board component is
    kept in. A bag is an insertion-ordered sequence; equality and hashing
    ignore the order. The pure functions below are the meaning of the class
    methods, and Board uses them directly on its sequence-valued fields. */
module Bags {
  import opened Results

  /** `Array#index`: the first position holding an element equal to `x`. */
  function IndexOf<T(==)>(s: seq<T>, x: T): (r: Option<nat>)
    ensures r.None? <==> x !in s
    ensures r.Some? ==> r.value < |s| && s[r.value] == x && x !in s[..r.value]
  {
    if |s| == 0 then None
    else if s[0] == x then Some(0)
    else match IndexOf(s[1..], x)
      case None => None
      case Some(i) =>
        assert s[..i + 1] == [s[0]] + s[1..][..i];
        Some(i + 1)
  }

  /** `Bag#delete` on the underlying array: drop the first element equal to
      `x`, keep the others in order; no match leaves the sequence alone. */
  function DeleteFirst<T(==)>(s: seq<T>, x: T): (r: seq<T>)
    ensures multiset(r) == multiset(s) - multiset{x}
    ensures x in s ==> |r| == |s| - 1
    ensures x !in s ==> r == s
  {
    match IndexOf(s, x)
    case None => s
    case Some(i) =>
      assert s == s[..i] + [s[i]] + s[i + 1..];
      s[..i] + s[i + 1..]
  }

  /** The element removed is the first match and the rest keep their order. */
  lemma DeleteFirstRemovesFirstMatch<T>(s: seq<T>, x: T, i: nat)
    requires i < |s| && s[i] == x && x !in s[..i]
    ensures DeleteFirst(s, x) == s[..i] + s[i + 1..]
  {
  }

  /** `Bag#-`: remove one occurrence of each element of `b` that is present,
      walking `b` front to back. */
  function Difference<T(==)>(a: seq<T>, b: seq<T>): (r: seq<T>)
    ensures multiset(r) == multiset(a) - multiset(b)
    decreases |b|
  {
    if |b| == 0 then a
    else
      var d := DeleteFirst(a, b[0]);
      var r := Difference(d, b[1..]);
      assert multiset(b) == multiset{b[0]} + multiset(b[1..]) by {
        assert b == [b[0]] + b[1..];
      }
      MultisetDiffTwice(multiset(a), b[0], multiset(b[1..]));
      r
  }

  lemma MultisetDiffTwice<T>(m: multiset<T>, x: T, n: multiset<T>)
    ensures (m - multiset{x}) - n == m - (multiset{x} + n)
  {
    forall y ensures ((m - multiset{x}) - n)[y] == (m - (multiset{x} + n))[y] {
    }
  }

  lemma MultisetCancel<T>(m: multiset<T>, n: multiset<T>, x: T)
    requires m + multiset{x} == n + multiset{x}
    ensures m == n
  {
    forall y ensures m[y] == n[y] {
      assert (m + multiset{x})[y] == (n + multiset{x})[y];
    }
  }

  lemma DifferenceStep<T>(a: seq<T>, b: seq<T>)
    requires |b| > 0
    ensures Difference(a, b) == Difference(DeleteFirst(a, b[0]), b[1..])
  {
  }

  /** `Bag#==`: both differences are empty. */
  predicate BagEq<T(==)>(a: seq<T>, b: seq<T>)
  {
    |Difference(a, b)| == 0 && |Difference(b, a)| == 0
  }

  /** Two bags are equal exactly when they hold the same elements with the
      same multiplicities, whatever the order. */
  lemma BagEqIsMultisetEq<T>(a: seq<T>, b: seq<T>)
    ensures BagEq(a, b) <==> multiset(a) == multiset(b)
  {
    var da, db := Difference(a, b), Difference(b, a);
    assert |multiset(da)| == |da| && |multiset(db)| == |db|;
    if BagEq(a, b) {
      assert multiset(a) - multiset(b) == multiset{};
      assert multiset(b) - multiset(a) == multiset{};
      forall x ensures multiset(a)[x] == multiset(b)[x] {
        assert (multiset(a) - multiset(b))[x] == 0;
        assert (multiset(b) - multiset(a))[x] == 0;
      }
    }
  }

  /** Ruby's `Integer#^` on 64-bit hash values. */
  function Xor(a: bv64, b: bv64): bv64
  {
    a ^ b
  }

  /** `inject(z, op)` over the hashes: a left fold, `op(op(op(z, h0), h1), ...)`. */
  function Fold<T, H>(s: seq<T>, h: T -> H, op: (H, H) -> H, z: H): H
  {
    if |s| == 0 then z else op(Fold(s[..|s| - 1], h, op, z), h(s[|s| - 1]))
  }

  /** The last two operands of `op` can trade places. */
  ghost predicate RightCommutative<H(!new)>(op: (H, H) -> H)
  {
    forall a, b, c :: op(op(a, b), c) == op(op(a, c), b)
  }

  /** XOR is associative and commutative, so it is right-commutative. */
  lemma XorIsRightCommutative()
    ensures RightCommutative(Xor)
  {
  }

  /** Appending an element folds its hash in last. */
  lemma FoldSnoc<T, H>(s: seq<T>, x: T, h: T -> H, op: (H, H) -> H, z: H)
    ensures Fold(s + [x], h, op, z) == op(Fold(s, h, op, z), h(x))
  {
    assert (s + [x])[..|s|] == s;
  }

  /** With a right-commutative `op`, any one element can be folded in last. */
  lemma {:induction false} FoldRemoveAt<T, H(!new)>(s: seq<T>, i: nat, h: T -> H, op: (H, H) -> H, z: H)
    requires RightCommutative(op)
    requires i < |s|
    ensures Fold(s, h, op, z) == op(Fold(s[..i] + s[i + 1..], h, op, z), h(s[i]))
    decreases |s|
  {
    var n := |s| - 1;
    if i == n {
      assert s[..i] + s[i + 1..] == s[..n];
    } else {
      var init := s[..n];
      var last := s[n];
      var rest := init[..i] + init[i + 1..];
      assert s == init + [last];
      assert s[..i] + s[i + 1..] == rest + [last];
      assert init[i] == s[i];
      FoldRemoveAt(init, i, h, op, z);
      FoldSnoc(init, last, h, op, z);
      FoldSnoc(rest, last, h, op, z);
    }
  }

  /** With a right-commutative `op`, the fold does not depend on the order. */
  lemma {:induction false} FoldPermutation<T, H(!new)>(a: seq<T>, b: seq<T>, h: T -> H, op: (H, H) -> H, z: H)
    requires RightCommutative(op)
    requires multiset(a) == multiset(b)
    ensures Fold(a, h, op, z) == Fold(b, h, op, z)
    decreases |a|
  {
    assert |a| == |multiset(a)| == |multiset(b)| == |b|;
    if |a| > 0 {
      var n := |a| - 1;
      var x := a[n];
      assert x in multiset(b);
      var i := IndexOf(b, x).value;
      var b' := b[..i] + b[i + 1..];
      assert b == b[..i] + [b[i]] + b[i + 1..];
      assert a == a[..n] + [x];
      assert multiset(b) == multiset(b') + multiset{x};
      assert multiset(a) == multiset(a[..n]) + multiset{x};
      MultisetCancel(multiset(a[..n]), multiset(b'), x);
      FoldPermutation(a[..n], b', h, op, z);
      FoldRemoveAt(b, i, h, op, z);
    }
  }

  /** `Bag#hash`: `@ary.map(&:hash).inject(0, :^)`, a left fold of XOR from 0. */
  function XorFold<T>(s: seq<T>, h: T -> bv64): bv64
  {
    Fold(s, h, Xor, 0)
  }

  /** Permuting the elements leaves the hash unchanged, so `==` bags hash alike. */
  lemma XorFoldPermutation<T>(a: seq<T>, b: seq<T>, h: T -> bv64)
    requires multiset(a) == multiset(b)
    ensures XorFold(a, h) == XorFold(b, h)
  {
    XorIsRightCommutative();
    FoldPermutation(a, b, h, Xor, 0);
  }

  /** `Bag#[]` / `find_eql`: the first element equal to the argument, or nil. */
  function FindEql<T(==)>(s: seq<T>, x: T): (r: Option<T>)
    ensures r.Some? <==> multiset(s)[x] > 0
    ensures r.Some? ==> r.value == x
  {
    match IndexOf(s, x)
    case None => None
    case Some(i) => Some(s[i])
  }

  /** A bag object: `@ary` is the sequence `elems`, changed in place. */
  class Bag<T(==)> {
    var elems: seq<T>

    /** The order-free view of the bag. */
    ghost function Contents(): multiset<T>
      reads this
    {
      multiset(elems)
    }

    /** `Bag.new(ary)` / `Bag[*elts]`: the bag holds a copy of `ary`. */
    constructor (ary: seq<T>)
      ensures elems == ary
    {
      elems := ary;
    }

    /** `initialize_copy` (used by `dup`/`clone`): same elements, own storage. */
    constructor Copy(orig: Bag<T>)
      ensures elems == orig.elems
    {
      elems := orig.elems;
    }

    /** `add` / `<<`: append one element and return the same bag. */
    method Add(x: T) returns (r: Bag<T>)
      modifies this
      ensures r == this
      ensures elems == old(elems) + [x]
      ensures Contents() == old(Contents()) + multiset{x}
    {
      elems := elems + [x];
      r := this;
    }

    /** `delete`: remove the first element equal to `x`, if any. */
    method Delete(x: T) returns (r: Bag<T>)
      modifies this
      ensures r == this
      ensures elems == DeleteFirst(old(elems), x)
      ensures Contents() == old(Contents()) - multiset{x}
    {
      var idx := IndexOf(elems, x);
      if idx.Some? {
        var i := idx.value;
        elems := elems[..i] + elems[i + 1..];
      }
      r := this;
    }

    /** `-`: a new bag holding this one minus one occurrence of each element
        of `other`; this bag is left unchanged. */
    method Minus(other: seq<T>) returns (r: Bag<T>)
      ensures fresh(r)
      ensures r.elems == Difference(elems, other)
      ensures r.Contents() == multiset(elems) - multiset(other)
    {
      var ary := elems;
      var k := 0;
      while k < |other|
        invariant 0 <= k <= |other|
        invariant Difference(ary, other[k..]) == Difference(elems, other)
      {
        ghost var before := ary;
        var idx := IndexOf(ary, other[k]);
        if idx.Some? {
          var i := idx.value;
          ary := ary[..i] + ary[i + 1..];
        }
        assert ary == DeleteFirst(before, other[k]);
        DifferenceStep(before, other[k..]);
        assert other[k..][1..] == other[k + 1..];
        k := k + 1;
      }
      assert other[k..] == [];
      r := new Bag(ary);
      assert r.elems == Difference(elems, other);
    }

    /** `+`: append the other bag's elements to this one in place and return
        the underlying array (the other bag is not changed). */
    method Plus(other: Bag<T>) returns (r: seq<T>)
      modifies this
      ensures elems == old(elems) + old(other.elems)
      ensures Contents() == old(Contents()) + old(other.Contents())
      ensures |elems| == old(|elems|) + old(|other.elems|)
      ensures r == elems
      ensures other != this ==> other.elems == old(other.elems)
    {
      elems := elems + other.elems;
      r := elems;
    }

    /** `==` / `eql?`: `(self - other).empty? && (other - self).empty?`. */
    method Equals(other: Bag<T>) returns (r: bool)
      ensures r <==> multiset(elems) == multiset(other.elems)
    {
      var d1 := Minus(other.elems);
      var d2 := other.Minus(elems);
      r := |d1.elems| == 0 && |d2.elems| == 0;
      BagEqIsMultisetEq(elems, other.elems);
    }

    /** `hash`: XOR of the element hashes, folded from 0. */
    method Hash(h: T -> bv64) returns (r: bv64)
      ensures r == XorFold(elems, h)
      ensures forall other: seq<T> | multiset(other) == multiset(elems) :: r == XorFold(other, h)
    {
      r := 0;
      var k := 0;
      while k < |elems|
        invariant 0 <= k <= |elems|
        invariant r == XorFold(elems[..k], h)
      {
        assert elems[..k + 1][..k] == elems[..k];
        r := Xor(r, h(elems[k]));
        k := k + 1;
      }
      assert elems[..k] == elems;
      forall other: seq<T> | multiset(other) == multiset(elems) ensures r == XorFold(other, h) {
        XorFoldPermutation(elems, other, h);
      }
    }

    /** `[]` / `find_eql`. */
    function Find(x: T): (r: Option<T>)
      reads this
      ensures r.Some? <==> x in Contents()
      ensures r.Some? ==> r.value == x
    {
      FindEql(elems, x)
    }

    /** `size`: the number of elements, counted with multiplicity. */
    function Size(): (n: nat)
      reads this
      ensures n == |Contents()|
    {
      |elems|
    }

    /** `empty?`. */
    predicate IsEmpty()
      reads this
      ensures IsEmpty() <==> Contents() == multiset{}
    {
      |elems| == 0
    }

    /** `include?`. */
    predicate Includes(x: T)
      reads this
      ensures Includes(x) <==> Contents()[x] > 0
    {
      x in elems
    }
  }

  /** A copy has its own storage: deleting from the original leaves the copy
      as it was (the `dup`/`clone` tests of test_bag.rb). */
  method CopyIsIndependent<T(==)>(b: Bag<T>, x: T) returns (c: Bag<T>)
    modifies b
    ensures fresh(c) && c.elems == old(b.elems)
    ensures b.elems == DeleteFirst(old(b.elems), x)
  {
    c := new Bag.Copy(b);
    var _ := b.Delete(x);
  }
}
