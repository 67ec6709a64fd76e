/** Small shared vocabulary. */
module Basics {

  datatype Option<+T> = None | Some(value: T)

  ghost predicate NoDuplicates<T>(s: seq<T>) {
    forall i, j | 0 <= i < j < |s| :: s[i] != s[j]
  }

  function Elements<T>(s: seq<T>): set<T> {
    set x | x in s
  }

  /** Python's `list.remove`: drop the first occurrence. */
  function Without<T(==)>(s: seq<T>, x: T): seq<T> {
    if s == [] then []
    else if s[0] == x then s[1..]
    else [s[0]] + Without(s[1..], x)
  }

  lemma {:induction false} WithoutRemoves<T>(s: seq<T>, x: T)
    requires NoDuplicates(s)
    ensures NoDuplicates(Without(s, x))
    ensures Elements(Without(s, x)) == Elements(s) - {x}
  {
    if s == [] {
    } else {
      assert Elements(s) == {s[0]} + Elements(s[1..]);
      if s[0] != x {
        WithoutRemoves(s[1..], x);
        var rest := Without(s[1..], x);
        assert forall y | y in rest :: y in Elements(rest);
        assert Elements([s[0]] + rest) == {s[0]} + Elements(rest);
      }
    }
  }

  lemma {:induction false} SizeOfElements<T>(s: seq<T>)
    requires NoDuplicates(s)
    ensures |Elements(s)| == |s|
  {
    if s == [] {
    } else {
      SizeOfElements(s[1..]);
      assert Elements(s) == {s[0]} + Elements(s[1..]);
    }
  }

  lemma HeadIsElement<T>(s: seq<T>)
    requires s != []
    ensures s[0] in s
  {
  }

  lemma SubsetIsSmaller<T>(a: set<T>, b: set<T>)
    requires a <= b
    ensures |a| <= |b|
  {
    assert b == a + (b - a);
  }

  /** A number beyond all in use. */
  lemma {:induction false} FreshNat(used: set<nat>) returns (n: nat)
    ensures forall u | u in used :: u < n
  {
    if used == {} {
      n := 0;
    } else {
      var u :| u in used;
      var m := FreshNat(used - {u});
      n := if m <= u then u + 1 else m;
      assert forall x | x in used :: x == u || x in used - {u};
    }
  }
}
