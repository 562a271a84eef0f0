/** Ruby `Array#uniq`: drop every repeated element, keeping first occurrences in order. */
module Lists {

  predicate NoDuplicates<T(==)>(s: seq<T>) {
    forall i, j | 0 <= i < j < |s| :: s[i] != s[j]
  }

  /** The position of the first occurrence of `x` in `s`. */
  function FirstIndex<T(==)>(s: seq<T>, x: T): (k: nat)
    requires x in s
    ensures k < |s| && s[k] == x
    ensures forall j | 0 <= j < k :: s[j] != x
    decreases |s|
  {
    if s[0] == x then 0 else 1 + FirstIndex(s[1..], x)
  }

  /** Appending an element does not move the first occurrence of anything already present. */
  lemma FirstIndexOfAppend<T>(p: seq<T>, z: T)
    ensures forall y | y in p :: FirstIndex(p + [z], y) == FirstIndex(p, y)
  {
    forall y | y in p
      ensures FirstIndex(p + [z], y) == FirstIndex(p, y)
    {
      var k1 := FirstIndex(p + [z], y);
      var k2 := FirstIndex(p, y);
      assert (p + [z])[k2] == y;
      assert p[k1] == y;
    }
  }

  /** `uniq`, defined from the back: the last element is kept only if it did not occur earlier. */
  function Dedup<T(==)>(s: seq<T>): (r: seq<T>)
    ensures NoDuplicates(r)
    ensures forall i | 0 <= i < |r| :: r[i] in s
    ensures forall i | 0 <= i < |s| :: s[i] in r
    ensures forall i, j | 0 <= i < j < |r| :: FirstIndex(s, r[i]) < FirstIndex(s, r[j])
    ensures |r| <= |s|
    decreases |s|
  {
    if |s| == 0 then []
    else
      var p := s[..|s| - 1];
      var d := Dedup(p);
      assert s == p + [s[|s| - 1]];
      FirstIndexOfAppend(p, s[|s| - 1]);
      if s[|s| - 1] in d then d
      else
        assert s[|s| - 1] !in p;
        d + [s[|s| - 1]]
  }

  /** A list without repetitions is its own `uniq`. */
  lemma {:induction false} DedupOfDistinct<T>(s: seq<T>)
    requires NoDuplicates(s)
    ensures Dedup(s) == s
    decreases |s|
  {
    if |s| > 0 {
      var p := s[..|s| - 1];
      var x := s[|s| - 1];
      assert NoDuplicates(p) by {
        assert forall i | 0 <= i < |p| :: p[i] == s[i];
      }
      DedupOfDistinct(p);
      assert x !in Dedup(p);
      assert Dedup(s) == Dedup(p) + [x];
      assert s == p + [x];
    }
  }

  /** Appending one element to a list without repetitions and deduplicating adds it
      at the end when it is new, and changes nothing when it is already there. */
  lemma DedupAppend<T>(s: seq<T>, x: T)
    requires NoDuplicates(s)
    ensures Dedup(s + [x]) == if x in s then s else s + [x]
  {
    DedupOfDistinct(s);
    assert (s + [x])[..|s + [x]| - 1] == s;
  }

  /** `uniq` is idempotent. */
  lemma DedupIdempotent<T>(s: seq<T>)
    ensures Dedup(Dedup(s)) == Dedup(s)
  {
    DedupOfDistinct(Dedup(s));
  }

  /** `uniq` computed with a set of elements already seen, as Ruby does it. */
  method Uniq<T(==)>(s: seq<T>) returns (r: seq<T>)
    ensures r == Dedup(s)
    ensures NoDuplicates(r)
  {
    r := [];
    var seen: set<T> := {};
    var i := 0;
    while i < |s|
      invariant 0 <= i <= |s|
      invariant r == Dedup(s[..i])
      invariant forall x :: x in seen <==> x in r
    {
      assert s[..i + 1][..i] == s[..i];
      if s[i] !in seen {
        r := r + [s[i]];
        seen := seen + {s[i]};
      }
      i := i + 1;
    }
    assert s[..|s|] == s;
  }
}
