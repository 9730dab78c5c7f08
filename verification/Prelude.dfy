/** Small helpers shared by every module of the model. */
module Prelude {

  datatype Option<+T> = None | Some(value: T)

  /** Player identifiers, as they appear in messages, maps and the turn order. */
  datatype PlayerId = Pid(name: string)

  /** The empty string as an identifier. */
  const EMPTY_ID: PlayerId := Pid("")

  ghost predicate NoDup<T>(s: seq<T>) {
    forall i, j :: 0 <= i < j < |s| ==> s[i] != s[j]
  }

  /** JavaScript's Array.indexOf: the first index holding `x`, or -1. */
  function IndexOf<T(==)>(s: seq<T>, x: T): (i: int)
    ensures -1 <= i < |s|
    ensures i == -1 ==> x !in s
    ensures i >= 0 ==> s[i] == x
    ensures forall j :: 0 <= j < i ==> s[j] != x
  {
    if s == [] then -1
    else if s[0] == x then 0
    else
      var rest := IndexOf(s[1..], x);
      if rest < 0 then -1 else rest + 1
  }

  /** JavaScript's splice(i, 1). */
  function Without<T>(s: seq<T>, i: nat): (r: seq<T>)
    requires i < |s|
    ensures |r| == |s| - 1
  {
    s[..i] + s[i + 1..]
  }

  /** The order after taking out the first occurrence of `x`, if any. */
  function Spliced<T(==)>(s: seq<T>, x: T): seq<T> {
    var i := IndexOf(s, x);
    if i >= 0 then Without(s, i) else s
  }

  /** Dropping the one occurrence of an element from a duplicate-free sequence. */
  lemma WithoutNoDup<T>(s: seq<T>, i: nat)
    requires i < |s| && NoDup(s)
    ensures NoDup(Without(s, i))
    ensures forall x :: x in Without(s, i) <==> x in s && x != s[i]
  {
    forall x | x in s && x != s[i] ensures x in Without(s, i) {
      var j :| 0 <= j < |s| && s[j] == x;
      assert Without(s, i)[if j < i then j else j - 1] == x;
    }
  }

  lemma NoDupCount<T>(s: seq<T>, x: T)
    requires NoDup(s)
    ensures multiset(s)[x] == if x in s then 1 else 0
  {
    if x in s {
      var i :| 0 <= i < |s| && s[i] == x;
      assert s == s[..i] + [x] + s[i + 1..];
      assert x !in s[..i] && x !in s[i + 1..];
    }
  }

  /** A duplicate-free sequence is as long as the set of its elements. */
  lemma NoDupLength<T>(s: seq<T>, elems: set<T>)
    requires NoDup(s)
    requires forall x :: x in s <==> x in elems
    ensures |s| == |elems|
    decreases |s|
  {
    if s == [] {
      assert elems == {};
    } else {
      var last := s[|s| - 1];
      var front := s[..|s| - 1];
      forall x ensures x in front <==> x in elems - {last} {
        if x in elems - {last} {
          var i :| 0 <= i < |s| && s[i] == x;
          assert front[i] == x;
        }
      }
      NoDupLength(front, elems - {last});
    }
  }
}
