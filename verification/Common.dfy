/** Small things every part of the model uses. */
module Common {

  datatype Option<T> = None | Some(value: T)

  function Max(a: int, b: int): int { if a >= b then a else b }

  function Min(a: int, b: int): int { if a <= b then a else b }

  // ----- 32-bit integers -----

  const TWO32 := 0x1_0000_0000
  const INT_MAX := 0x7fff_ffff

  type int32 = x: int | -INT_MAX - 1 <= x <= INT_MAX

  /** What a 32-bit int keeps of x: the low 32 bits in two's complement. */
  function Signed(x: int): int32 {
    var y := x % TWO32;
    if y > INT_MAX then y - TWO32 else y
  }

  lemma SignedIs(x: int)
    ensures -INT_MAX - 1 <= x <= INT_MAX ==> Signed(x) == x
    ensures INT_MAX < x <= INT_MAX + TWO32 ==> Signed(x) == x - TWO32
  {}

  /** Wrapping on the way does not change a sum. */
  lemma SignedSum(x: int, y: int)
    ensures Signed(Signed(x) + y) == Signed(x + y)
  {}

  // ----- sets -----

  lemma Nonempty<T>(s: set<T>)
    requires s != {}
    ensures exists x :: x in s
  {
    assert (forall x :: x !in s) ==> s == {};
  }

  lemma Member<T>(s: set<T>) returns (x: T)
    requires s != {}
    ensures x in s
  {
    Nonempty(s);
    x :| x in s;
  }

  /** A subset is no larger, and smaller unless it is the whole. */
  lemma SubsetIsSmaller<T>(a: set<T>, b: set<T>)
    requires a <= b
    ensures |a| <= |b| && (a != b ==> |a| < |b|)
  {
    assert b == a + (b - a);
    assert a != b ==> b - a != {};
  }

  /** There are n numbers from 0 up to n. */
  lemma {:induction false} SizeBelow(s: set<int>, n: nat)
    requires forall x :: x in s ==> 0 <= x < n
    ensures |s| <= n
  {
    if s != {} {
      var x := Member(s);
      SizeBelow(s - {n - 1}, n - 1);
      assert s == s - {n - 1} + if n - 1 in s then {n - 1} else {};
    }
  }
}
