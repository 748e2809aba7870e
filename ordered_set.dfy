/** A JavaScript `Set` as the engine uses it: an insertion-ordered sequence
    without duplicates. `add` appends only a new member, `delete` removes a
    member and keeps the order of the others, `size` is the length. */
module OrderedSet {

  ghost predicate NoDups<T>(s: seq<T>)
  {
    forall i, j :: 0 <= i < j < |s| ==> s[i] != s[j]
  }

  /** `Set.prototype.add`: a member already present keeps its place, a new one goes last. */
  function Add<T(==,!new)>(s: seq<T>, x: T): (r: seq<T>)
    ensures forall y :: y in r <==> y in s || y == x
    ensures |s| <= |r| && r[..|s|] == s
    ensures |r| == if x in s then |s| else |s| + 1
    ensures NoDups(s) ==> NoDups(r)
  {
    if x in s then s else s + [x]
  }

  /** `Set.prototype.delete`: drops `x` and keeps every other member in order. */
  function Delete<T(==,!new)>(s: seq<T>, x: T): (r: seq<T>)
    ensures forall y :: y in r <==> y in s && y != x
    ensures x !in s ==> r == s
    ensures NoDups(s) ==> NoDups(r) && |r| == if x in s then |s| - 1 else |s|
  {
    if s == [] then []
    else if s[0] == x then Delete(s[1..], x)
    else
      var rest := Delete(s[1..], x);
      assert NoDups(s) ==> s[0] !in s[1..];
      [s[0]] + rest
  }

  /** Deleting a member of a set closes the gap it leaves: the members before
      it and the members after it keep their order. */
  lemma {:induction false} DeleteKeepsOrder<T(!new)>(s: seq<T>, x: T) returns (k: nat)
    requires NoDups(s) && x in s
    ensures k < |s| && s[k] == x && Delete(s, x) == s[..k] + s[k + 1..]
    decreases |s|
  {
    if s[0] == x {
      assert x !in s[1..];
      k := 0;
    } else {
      assert NoDups(s[1..]) && x in s[1..];
      var k' := DeleteKeepsOrder(s[1..], x);
      k := k' + 1;
      assert s[..k] + s[k + 1..] == [s[0]] + (s[1..][..k'] + s[1..][k' + 1..]);
    }
  }

  /** A duplicate-free sequence of numbers below `n` has at most `n` members. */
  lemma {:induction false} BoundedLength(s: seq<nat>, n: nat)
    requires NoDups(s)
    requires forall x :: x in s ==> x < n
    ensures |s| <= n
    decreases |s|
  {
    if s != [] {
      var m := s[|s| - 1];
      var t := Delete(s, m);
      assert forall y :: y in t ==> y in s && y != m;
      var u := seq(|t|, i requires 0 <= i < |t| => if t[i] < m then t[i] else t[i] - 1);
      assert NoDups(u) by {
        forall i, j | 0 <= i < j < |u| ensures u[i] != u[j] {
          assert t[i] != t[j];
          assert t[i] != m && t[j] != m by { assert t[i] in t && t[j] in t; }
        }
      }
      forall x | x in u ensures x < n - 1 {
        var i :| 0 <= i < |u| && u[i] == x;
        assert t[i] in t;
        assert t[i] in s && t[i] != m;
      }
      BoundedLength(u, n - 1);
    }
  }
}
